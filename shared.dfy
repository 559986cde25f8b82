/** The helpers every generator shares (`BaseGenerator` in gen_shared.py): enum
    resolution, length enforcement, the mandatory-field placeholder and the
    column specification parser. */
module Shared {
  import opened Text

  datatype Option<T> = None | Some(value: T)

  /** A value stored in a generator's context dict: the generators only store
      strings, booleans and `None` there. */
  datatype Value = Str(s: string) | Bool(b: bool) | Null

  /** `str(v)` */
  function Render(v: Value): string {
    match v
    case Str(s) => s
    case Bool(b) => if b then "True" else "False"
    case Null => "None"
  }

  /** Python truthiness (`not v` is its negation). */
  predicate Truthy(v: Value) {
    match v
    case Str(s) => s != ""
    case Bool(b) => b
    case Null => false
  }

  lemma TruthyRendersNonEmpty(v: Value)
    requires Truthy(v)
    ensures Render(v) != ""
  {
  }

  /** Truthiness of a text field that may be absent (`None`). */
  predicate Present(o: Option<string>) {
    o.Some? && o.value != ""
  }

  /** `d.get(k)` */
  function Get(d: map<string, string>, k: string): Option<string> {
    if k in d then Some(d[k]) else None
  }

  /** `d.get(k, default)`: the default only when the key is absent. */
  function GetOr(d: map<string, string>, k: string, default: string): string {
    if k in d then d[k] else default
  }

  /** `d.get(k) or fallback`: the fallback also when the stored text is empty. */
  function GetOrElse(d: map<string, string>, k: string, fallback: string): string {
    if k in d && d[k] != "" then d[k] else fallback
  }

  /** `k in d` and `d[k]` on a dict written as its (key, value) pairs: the
      first pair with that key. */
  function Lookup(kvs: seq<(string, Value)>, k: string): (r: Option<Value>)
    ensures r.Some? ==> (k, r.value) in kvs
    ensures r.None? <==> forall i :: 0 <= i < |kvs| ==> kvs[i].0 != k
  {
    if |kvs| == 0 then None
    else if kvs[0].0 == k then Some(kvs[0].1)
    else Lookup(kvs[1..], k)
  }

  lemma TakeSnoc<T>(s: seq<T>, i: nat)
    requires i < |s|
    ensures s[..i + 1] == s[..i] + [s[i]]
  {
  }

  lemma TakeTake<T>(s: seq<T>, i: nat)
    requires i < |s|
    ensures s[..i + 1][..i] == s[..i]
  {
  }

  lemma TakeAll<T>(s: seq<T>)
    ensures s[..|s|] == s
  {
  }

  /** `[f(x) for x in xs]` */
  function MapSeq<A, B>(xs: seq<A>, f: A -> B): (r: seq<B>)
    ensures |r| == |xs|
  {
    if |xs| == 0 then [] else MapSeq(xs[..|xs| - 1], f) + [f(xs[|xs| - 1])]
  }

  lemma {:induction false} MapSeqAt<A, B>(xs: seq<A>, f: A -> B, i: nat)
    requires i < |xs|
    ensures MapSeq(xs, f)[i] == f(xs[i])
  {
    if i < |xs| - 1 {
      MapSeqAt(xs[..|xs| - 1], f, i);
    }
  }

  lemma MapSeqSnoc<A, B>(xs: seq<A>, x: A, f: A -> B)
    ensures MapSeq(xs + [x], f) == MapSeq(xs, f) + [f(x)]
  {
    assert (xs + [x])[..|xs|] == xs;
  }

  lemma {:induction false} MapSeqAppend<A, B>(xs: seq<A>, ys: seq<A>, f: A -> B)
    ensures MapSeq(xs + ys, f) == MapSeq(xs, f) + MapSeq(ys, f)
    decreases |ys|
  {
    if |ys| > 0 {
      var init := ys[..|ys| - 1];
      assert (xs + ys)[..|xs + ys| - 1] == xs + init;
      MapSeqAppend(xs, init, f);
    } else {
      assert xs + ys == xs;
    }
  }

  /** `[f(i, x) for i, x in enumerate(xs)]` */
  function MapWithIndex<A, B>(xs: seq<A>, f: (nat, A) -> B): (r: seq<B>)
    ensures |r| == |xs|
  {
    if |xs| == 0 then [] else MapWithIndex(xs[..|xs| - 1], f) + [f(|xs| - 1, xs[|xs| - 1])]
  }

  lemma {:induction false} MapWithIndexAt<A, B>(xs: seq<A>, f: (nat, A) -> B, i: nat)
    requires i < |xs|
    ensures MapWithIndex(xs, f)[i] == f(i, xs[i])
  {
    if i < |xs| - 1 {
      MapWithIndexAt(xs[..|xs| - 1], f, i);
    }
  }

  lemma MapWithIndexSnoc<A, B>(xs: seq<A>, x: A, f: (nat, A) -> B)
    ensures MapWithIndex(xs + [x], f) == MapWithIndex(xs, f) + [f(|xs|, x)]
  {
    assert (xs + [x])[..|xs|] == xs;
  }

  /** The concatenation of some lists, in order (nested `append` loops). */
  function Flatten<T>(xss: seq<seq<T>>): seq<T> {
    if |xss| == 0 then [] else Flatten(xss[..|xss| - 1]) + xss[|xss| - 1]
  }

  lemma FlattenSnoc<T>(xss: seq<seq<T>>, xs: seq<T>)
    ensures Flatten(xss + [xs]) == Flatten(xss) + xs
  {
    assert (xss + [xs])[..|xss|] == xss;
  }

  /** Everything in the concatenation comes from one of the lists. */
  lemma {:induction false} FlattenMember<T>(xss: seq<seq<T>>, x: T) returns (i: nat)
    requires x in Flatten(xss)
    ensures i < |xss| && x in xss[i]
  {
    var init := xss[..|xss| - 1];
    if x in xss[|xss| - 1] {
      i := |xss| - 1;
    } else {
      i := FlattenMember(init, x);
      assert xss[i] == init[i];
    }
  }

  /** Each list contributes its elements, so if none is empty there are at
      least as many elements as lists. */
  lemma {:induction false} FlattenLength<T>(xss: seq<seq<T>>)
    requires forall i :: 0 <= i < |xss| ==> |xss[i]| >= 1
    ensures |Flatten(xss)| >= |xss|
  {
    if |xss| > 0 {
      FlattenLength(xss[..|xss| - 1]);
    }
  }

  /** `random.randint(lo, hi)`, driven by an oracle draw. */
  function RandInt(lo: int, hi: int, draw: nat): (r: int)
    requires lo <= hi
    ensures lo <= r <= hi
  {
    lo + draw % (hi - lo + 1)
  }

  /** `random.choice(xs)`, driven by an oracle draw. */
  function Choice<T>(xs: seq<T>, draw: nat): (r: T)
    requires |xs| > 0
    ensures r in xs
  {
    xs[draw % |xs|]
  }

  // ---------------------------------------------------------------------------
  // Enum resolution (`_resolve_value`)
  // ---------------------------------------------------------------------------

  /** The normalised form of a free-text input: trimmed and upper-cased. */
  function Clean(s: string): string {
    Upper(Trim(s))
  }

  /** A code without surrounding blanks or lower-case letters is its own clean form. */
  lemma CleanFixed(s: string)
    requires |s| > 0 && !IsSpace(s[0]) && !IsSpace(s[|s| - 1])
    requires forall i :: 0 <= i < |s| ==> !('a' <= s[i] <= 'z')
    ensures Clean(s) == s
  {
    assert TrimLeft(s) == s;
    assert TrimRight(s) == s;
  }

  /** What `_resolve_value` falls back to: a non-empty default, else a random
      valid code, else "". (A default of `None` is the empty string here.) */
  function Fallback(valid: seq<string>, default: string, pick: nat): string {
    if default != "" then default else if |valid| > 0 then Choice(valid, pick) else ""
  }

  /** `_resolve_value(input, mapping, valid, default)`: coerce free text to a
      code; `pick` is the draw behind `random.choice(valid)`. */
  function ResolveValue(input: Option<string>, mapping: map<string, string>,
                        valid: seq<string>, default: string, pick: nat): (r: string)
    // a valid code (after cleaning) is kept as it is
    ensures Present(input) && Clean(input.value) in valid ==> r == Clean(input.value)
    // otherwise a known description (or reverse code) is translated
    ensures Present(input) && Clean(input.value) !in valid && Clean(input.value) in mapping
            ==> r == mapping[Clean(input.value)]
    // an empty or unknown input gets the default, else a valid code, else ""
    ensures !Present(input) || (Clean(input.value) !in valid && Clean(input.value) !in mapping) ==>
              (default != "" ==> r == default)
              && (default == "" && |valid| > 0 ==> r in valid)
              && (default == "" && |valid| == 0 ==> r == "")
    // so the result is never anything else
    ensures (Present(input) && r == Clean(input.value)) || r in mapping.Values
            || r == default || r in valid || r == ""
  {
    if !Present(input) then Fallback(valid, default, pick)
    else
      var clean := Clean(input.value);
      if clean in valid then clean
      else if clean in mapping then mapping[clean]
      else Fallback(valid, default, pick)
  }

  /** "Never reject, always coerce to something valid": when the table's
      translations and the default are valid codes and there is at least one
      code, the result is a valid code whatever the input and the draw. */
  lemma ResolveIsValidCode(input: Option<string>, mapping: map<string, string>,
                           valid: seq<string>, default: string, pick: nat)
    requires |valid| > 0
    requires forall k :: k in mapping ==> mapping[k] in valid
    requires default == "" || default in valid
    ensures ResolveValue(input, mapping, valid, default, pick) in valid
  {
  }

  /** With a non-empty default the random draw is never consulted. */
  lemma ResolveIgnoresDrawGivenDefault(input: Option<string>, mapping: map<string, string>,
                                       valid: seq<string>, default: string, pick1: nat, pick2: nat)
    requires default != ""
    ensures ResolveValue(input, mapping, valid, default, pick1)
         == ResolveValue(input, mapping, valid, default, pick2)
  {
  }

  // ---------------------------------------------------------------------------
  // Length enforcement (`_enforce_length`)
  // ---------------------------------------------------------------------------

  /** `int(col_type.split('(')[1].split(')')[0])` for a bound written in
      decimal digits (surrounding whitespace allowed); `None` where the
      split or the `int` call raises. */
  function LengthBound(colType: string): (b: Option<nat>)
    ensures b.Some? ==> '(' in colType
  {
    SplitMany(colType, '(');
    var pieces := Split(colType, '(');
    if |pieces| < 2 then None
    else
      var inner := Trim(Split(pieces[1], ')')[0]);
      if inner != "" && AllDigits(inner) then Some(ParseDecimal(inner)) else None
  }

  /** A declared type `STRING(n)` with a readable bound `n`. */
  predicate Bounded(colType: string) {
    Contains(colType, "STRING") && LengthBound(colType).Some?
  }

  /** `_enforce_length(value, col_type)` on the already stringified value. */
  function EnforceLength(val: string, colType: string): (r: string)
    ensures r <= val
    ensures Bounded(colType) ==> |r| == if |val| <= LengthBound(colType).value then |val| else LengthBound(colType).value
    ensures !Bounded(colType) ==> r == val
  {
    ContainsChar(colType, '(');
    if Contains(colType, "STRING") && Contains(colType, "(") then
      match LengthBound(colType)
      case Some(n) => Take(val, n)
      case None => val
    else val
  }

  /** Enforcing the same declared type twice changes nothing more. */
  lemma EnforceLengthIdempotent(val: string, colType: string)
    ensures EnforceLength(EnforceLength(val, colType), colType) == EnforceLength(val, colType)
  {
  }

  // ---------------------------------------------------------------------------
  // Mandatory-field placeholder
  // ---------------------------------------------------------------------------

  /** The filler for an empty mandatory column. */
  function Placeholder(numeric: bool): string {
    if numeric then "0" else "N"
  }

  /** `if mandatory and not val: val = "0" if numeric else "N"` */
  function FillMandatory(v: Value, mandatory: bool, numeric: bool): (r: Value)
    ensures mandatory ==> Truthy(r)
    ensures Truthy(v) || !mandatory ==> r == v
    ensures mandatory && !Truthy(v) ==> r == Str(Placeholder(numeric))
  {
    if mandatory && !Truthy(v) then Str(Placeholder(numeric)) else v
  }

  /** A mandatory cell is never empty unless its declared bound is zero. */
  lemma MandatoryCellNonEmpty(v: Value, numeric: bool, colType: string)
    ensures LengthBound(colType) != Some(0) ==> EnforceLength(Render(FillMandatory(v, true, numeric)), colType) != ""
  {
    TruthyRendersNonEmpty(FillMandatory(v, true, numeric));
  }

  // ---------------------------------------------------------------------------
  // Column specifications (`_load_spec`)
  // ---------------------------------------------------------------------------

  /** The parsed column specification: three parallel arrays. */
  datatype Spec = Spec(columns: seq<string>, types: seq<string>, mandatory: seq<string>) {
    predicate WellFormed() {
      |types| == |columns| && |mandatory| == |columns|
    }
  }

  const EmptySpec: Spec := Spec([], [], [])

  /** One column of a specification: its name, declared type and mandatory flag. */
  datatype Column = Column(name: string, colType: string, mandatory: string)

  /** The three parallel arrays read column by column. */
  function Columns(spec: Spec): (cols: seq<Column>)
    requires spec.WellFormed()
    ensures |cols| == |spec.columns|
    ensures forall i :: 0 <= i < |cols| ==> cols[i] == Column(spec.columns[i], spec.types[i], spec.mandatory[i])
  {
    seq(|spec.columns|, i requires 0 <= i < |spec.columns| => Column(spec.columns[i], spec.types[i], spec.mandatory[i]))
  }

  /** `[l.strip() for l in lines if l.strip()]` */
  function NonBlankLines(lines: seq<string>): (r: seq<string>)
    ensures forall l :: l in r ==> l != ""
  {
    if |lines| == 0 then []
    else
      var t := Trim(lines[0]);
      (if t != "" then [t] else []) + NonBlankLines(lines[1..])
  }

  /** The index of the line holding the types: 2 when line 2 mentions STRING or
      DATE, else 3 (line 2 is then an extra description line). */
  function TypesLine(nb: seq<string>): nat
    requires |nb| >= 3
  {
    var upper := Upper(nb[2]);
    if Contains(upper, "STRING") || Contains(upper, "DATE") then 2 else 3
  }

  /** `lines[k].split('|') if len(lines) > k else []` */
  function LinePieces(nb: seq<string>, k: nat): seq<string> {
    if k < |nb| then Split(nb[k], '|') else []
  }

  /** `lst` padded with `filler` up to `n` entries, then cut to `n` entries. */
  function PadTo(lst: seq<string>, n: nat, filler: string): (r: seq<string>)
    ensures |r| == n
    ensures forall i :: 0 <= i < n ==> r[i] == if i < |lst| then lst[i] else filler
  {
    if |lst| >= n then lst[..n] else lst + seq(n - |lst|, _ => filler)
  }

  /** What `_load_spec` returns for the lines of a specification file (a
      missing file reads as no lines). */
  function SpecOf(lines: seq<string>): (r: Spec)
    ensures r.WellFormed()
    ensures |NonBlankLines(lines)| < 3 ==> r == EmptySpec
    ensures var nb := NonBlankLines(lines);
            |nb| >= 3 ==>
              var types := LinePieces(nb, TypesLine(nb));
              var flags := LinePieces(nb, TypesLine(nb) + 1);
              && r.columns == Split(nb[1], '|')
              && (forall i :: 0 <= i < |r.columns| ==>
                    r.types[i] == (if i < |types| then types[i] else "STRING"))
              && (forall i :: 0 <= i < |r.columns| ==>
                    r.mandatory[i] == (if i < |flags| then flags[i] else "N"))
  {
    var nb := NonBlankLines(lines);
    if |nb| < 3 then EmptySpec
    else
      var cols := Split(nb[1], '|');
      var k := TypesLine(nb);
      Spec(cols, PadTo(LinePieces(nb, k), |cols|, "STRING"), PadTo(LinePieces(nb, k + 1), |cols|, "N"))
  }

  /** `while len(lst) < n: lst.append(filler)` followed by `lst[:n]`. */
  method PadList(lst: seq<string>, n: nat, filler: string) returns (r: seq<string>)
    ensures r == PadTo(lst, n, filler)
  {
    r := lst;
    while |r| < n
      invariant |lst| <= |r| <= if |lst| < n then n else |lst|
      invariant forall i :: 0 <= i < |r| ==> r[i] == if i < |lst| then lst[i] else filler
      decreases n - |r|
    {
      r := r + [filler];
    }
    r := r[..n];
  }

  /** `_load_spec` over the lines of the file. */
  method LoadSpec(lines: seq<string>) returns (spec: Spec)
    ensures spec == SpecOf(lines)
  {
    var nb := NonBlankLines(lines);
    if |nb| < 3 {
      return EmptySpec;
    }
    var cols := Split(nb[1], '|');
    var line2Upper := Upper(nb[2]);
    var types, mandatory;
    if Contains(line2Upper, "STRING") || Contains(line2Upper, "DATE") {
      types := Split(nb[2], '|');
      mandatory := if |nb| > 3 then Split(nb[3], '|') else [];
    } else {
      types := if |nb| > 3 then Split(nb[3], '|') else [];
      mandatory := if |nb| > 4 then Split(nb[4], '|') else [];
    }
    types := PadList(types, |cols|, "STRING");
    mandatory := PadList(mandatory, |cols|, "N");
    spec := Spec(cols, types, mandatory);
  }
}
