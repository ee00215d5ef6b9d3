/** User-supplied Helm values (internal/kube/helm_values.go:21-89). */
module HelmValues {
  // The part of a release's values that differs from the chart's defaults.

  /** Decoded YAML. Numbers decode to 64-bit integers or to floating point, modelled as exact finite reals. */
  datatype Value = Null | Bool(b: bool) | Int(i: int) | Float(x: real) | Str(s: string) | List(items: seq<Value>) |
                   Dict(entries: map<string, Value>)

  type Values = map<string, Value>

  const MIN_INT64: real := -9_223_372_036_854_775_808.0
  const MAX_INT64: real := 9_223_372_036_854_775_808.0

  /** A float that holds a 64-bit integer counts as that integer. */
  function Normalized(v: Value): Value {
    match v
    case Float(x) => if x == x.Floor as real && MIN_INT64 <= x < MAX_INT64 then Int(x.Floor) else v
    case List(items) => List(seq(|items|, i requires 0 <= i < |items| => Normalized(items[i])))
    case Dict(m) => Dict(map k | k in m :: Normalized(m[k]))
    case _ => v
  }

  /** reflect.DeepEqual after normalisation. */
  predicate Same(a: Value, b: Value) {
    Normalized(a) == Normalized(b)
  }

  function Diff(base: Values, overlay: Values): Values
    decreases Dict(overlay), 0
  {
    map k | k in overlay && (k !in base || Differs(base[k], overlay[k])) ::
      if k in base && base[k].Dict? && overlay[k].Dict?
      then Dict(Diff(base[k].entries, overlay[k].entries)) else overlay[k]
  }

  predicate Differs(b: Value, o: Value)
    decreases o, 1
  {
    if b.Dict? && o.Dict? then Diff(b.entries, o.entries) != map[] else !Same(b, o)
  }

  /** helmUserSuppliedValues: no values at all, or no defaults to compare with, need no comparison. */
  function UserSupplied(config: Values, defaults: Values): Values {
    if config == map[] then map[]
    else if defaults == map[] then config
    else Diff(defaults, config)
  }

  // ----- when values are the same -----

  /** The same value, except that a float may stand for the 64-bit integer that it holds, at any depth. */
  predicate Alike(a: Value, b: Value)
    decreases a
  {
    match a
    case Null => b.Null?
    case Bool(x) => b.Bool? && b.b == x
    case Str(x) => b.Str? && b.s == x
    case Int(n) => (b.Int? && b.i == n) || (b.Float? && Holds(b.x, n))
    case Float(x) => (b.Float? && b.x == x) || (b.Int? && Holds(x, b.i))
    case List(items) =>
      b.List? && |items| == |b.items| && forall i :: 0 <= i < |items| ==> Alike(items[i], b.items[i])
    case Dict(m) =>
      b.Dict? && m.Keys == b.entries.Keys && forall k :: k in m && k in b.entries ==> Alike(m[k], b.entries[k])
  }

  predicate Holds(x: real, n: int) {
    x == n as real && MIN_INT64 <= x < MAX_INT64
  }

  lemma {:induction false} SameIffAlike(a: Value, b: Value)
    ensures Same(a, b) <==> Alike(a, b)
    decreases a
  {
    if a.List? && b.List? && |a.items| == |b.items| {
      forall i | 0 <= i < |a.items| ensures Same(a.items[i], b.items[i]) <==> Alike(a.items[i], b.items[i]) {
        SameIffAlike(a.items[i], b.items[i]);
      }
      SameByItem(a.items, b.items);
    } else if a.Dict? && b.Dict? {
      forall k | k in a.entries && k in b.entries
        ensures Same(a.entries[k], b.entries[k]) <==> Alike(a.entries[k], b.entries[k])
      {
        SameIffAlike(a.entries[k], b.entries[k]);
      }
      SameByKey(a.entries, b.entries);
    } else {
      SameScalars(a, b);
    }
  }

  lemma SameScalars(a: Value, b: Value)
    requires !(a.List? && b.List? && |a.items| == |b.items|) && !(a.Dict? && b.Dict?)
    ensures Same(a, b) <==> Alike(a, b)
  {
  }

  lemma SameByItem(a: seq<Value>, b: seq<Value>)
    requires |a| == |b|
    ensures Same(List(a), List(b)) <==> forall i :: 0 <= i < |a| ==> Same(a[i], b[i])
  {
    var na, nb := Normalized(List(a)).items, Normalized(List(b)).items;
    if na == nb {
      forall i | 0 <= i < |a| ensures Same(a[i], b[i]) {
        assert na[i] == nb[i];
      }
    }
  }

  // ----- the program's loops -----

  method NormalizeHelmScalar(v: Value) returns (r: Value)
    ensures r == Normalized(v)
    decreases v
  {
    match v {
      case Float(x) =>
        r := if x == x.Floor as real && MIN_INT64 <= x < MAX_INT64 then Int(x.Floor) else v;
      case List(items) =>
        var out := [];
        for i := 0 to |items|
          invariant |out| == i && forall j :: 0 <= j < i ==> out[j] == Normalized(items[j])
        {
          var item := NormalizeHelmScalar(items[i]);
          out := out + [item];
        }
        r := List(out);
      case Dict(m) =>
        var out: Values := map[];
        var todo := m.Keys;
        while todo != {}
          invariant todo <= m.Keys && out.Keys == m.Keys - todo
          invariant forall k :: k in out ==> out[k] == Normalized(m[k])
        {
          var k :| k in todo;
          todo := todo - {k};
          var item := NormalizeHelmScalar(m[k]);
          out := out[k := item];
        }
        r := Dict(out);
      case _ => r := v;
    }
  }

  method DiffHelmValueMaps(base: Values, overlay: Values) returns (out: Values)
    ensures out == Diff(base, overlay)
    decreases Dict(overlay)
  {
    out := map[];
    var todo := overlay.Keys;
    while todo != {}
      invariant todo <= overlay.Keys
      invariant out.Keys == Diff(base, overlay).Keys - todo
      invariant forall k :: k in out ==> out[k] == Diff(base, overlay)[k]
    {
      var key :| key in todo;
      todo := todo - {key};
      var overlayVal := overlay[key];
      if key !in base {
        out := out[key := overlayVal];
        continue;
      }
      var baseVal := base[key];
      if overlayVal.Dict? && baseVal.Dict? {
        var nested := DiffHelmValueMaps(baseVal.entries, overlayVal.entries);
        if |nested| > 0 {
          out := out[key := Dict(nested)];
        }
        continue;
      }
      var b := NormalizeHelmScalar(baseVal);
      var o := NormalizeHelmScalar(overlayVal);
      if b != o {
        out := out[key := overlayVal];
      }
    }
  }

  method HelmUserSuppliedValues(config: Values, defaults: Values) returns (out: Values)
    ensures out == UserSupplied(config, defaults)
  {
    if |config| == 0 {
      return map[];
    }
    if |defaults| == 0 {
      return config;
    }
    out := DiffHelmValueMaps(defaults, config);
  }

  // ----- what the difference means -----

  /** Values with an overlay applied: maps merge key by key, anything else is replaced. */
  function Merged(base: Values, overlay: Values): Values
    decreases Dict(overlay)
  {
    map k | k in base.Keys + overlay.Keys ::
      if k !in overlay then base[k]
      else if k in base && base[k].Dict? && overlay[k].Dict?
      then Dict(Merged(base[k].entries, overlay[k].entries))
      else overlay[k]
  }

  predicate SameValues(a: Values, b: Values) {
    Same(Dict(a), Dict(b))
  }

  lemma SameByKey(a: Values, b: Values)
    ensures SameValues(a, b) <==> a.Keys == b.Keys && forall k :: k in a && k in b ==> Same(a[k], b[k])
  {
    var na, nb := Normalized(Dict(a)).entries, Normalized(Dict(b)).entries;
    assert na.Keys == a.Keys && nb.Keys == b.Keys;
    if SameValues(a, b) {
      forall k | k in a && k in b ensures Same(a[k], b[k]) {
        assert na[k] == nb[k];
      }
    }
  }

  /** The difference at one key. */
  lemma DiffAt(base: Values, overlay: Values, k: string)
    ensures var d := Diff(base, overlay);
            (k in d <==> k in overlay && (k !in base || Differs(base[k], overlay[k]))) &&
            (k in d ==> d[k] == if k in base && base[k].Dict? && overlay[k].Dict?
                                then Dict(Diff(base[k].entries, overlay[k].entries)) else overlay[k])
  {
  }

  /** The merged values at one key. */
  lemma MergedAt(base: Values, overlay: Values, k: string)
    ensures var m := Merged(base, overlay);
            (k in m <==> k in base || k in overlay) &&
            (k in m ==> m[k] == if k !in overlay then base[k]
                                else if k in base && base[k].Dict? && overlay[k].Dict?
                                then Dict(Merged(base[k].entries, overlay[k].entries)) else overlay[k])
  {
  }

  lemma MergedWithNothing(base: Values)
    ensures Merged(base, map[]) == base
  {
    forall k ensures k in Merged(base, map[]) <==> k in base {
      MergedAt(base, map[], k);
    }
    forall k | k in base ensures Merged(base, map[])[k] == base[k] {
      MergedAt(base, map[], k);
    }
  }

  /** The user-supplied part, merged over the defaults, restores the release's values, up to the number format. */
  lemma {:induction false} DiffPreservesMeaning(base: Values, overlay: Values)
    ensures SameValues(Merged(base, Diff(base, overlay)), Merged(base, overlay))
    decreases Dict(overlay), 1
  {
    var a, b := Merged(base, Diff(base, overlay)), Merged(base, overlay);
    forall k ensures k in a <==> k in b {
      DiffAt(base, overlay, k);
      MergedAt(base, Diff(base, overlay), k);
      MergedAt(base, overlay, k);
    }
    forall k | k in a && k in b ensures Same(a[k], b[k]) {
      MeaningAt(base, overlay, k);
    }
    SameByKey(a, b);
  }

  lemma {:induction false} MeaningAt(base: Values, overlay: Values, k: string)
    requires k in base || k in overlay
    ensures var a, b := Merged(base, Diff(base, overlay)), Merged(base, overlay); k in a && k in b && Same(a[k], b[k])
    decreases Dict(overlay), 0
  {
    DiffAt(base, overlay, k);
    MergedAt(base, Diff(base, overlay), k);
    MergedAt(base, overlay, k);
    if k in base && k in overlay && base[k].Dict? && overlay[k].Dict? {
      var be, oe := base[k].entries, overlay[k].entries;
      DiffPreservesMeaning(be, oe);
      MergedWithNothing(be);
    }
  }

  /** Nothing more can be left out of the difference. */
  lemma {:induction false} DiffIdempotent(base: Values, overlay: Values)
    ensures Diff(base, Diff(base, overlay)) == Diff(base, overlay)
    decreases Dict(overlay)
  {
    var d := Diff(base, overlay);
    var again := Diff(base, d);
    forall k ensures (k in again <==> k in d) && (k in d && k in again ==> again[k] == d[k]) {
      DiffAt(base, overlay, k);
      DiffAt(base, d, k);
      if k in d && k in base && base[k].Dict? && overlay[k].Dict? {
        DiffIdempotent(base[k].entries, overlay[k].entries);
      }
    }
  }

  /** The difference is empty exactly when the values add nothing to the defaults. */
  lemma {:induction false} DiffEmptyIffNothingAdded(base: Values, overlay: Values)
    ensures Diff(base, overlay) == map[] <==> SameValues(Merged(base, overlay), base)
    decreases Dict(overlay), 1
  {
    var d, m := Diff(base, overlay), Merged(base, overlay);
    SameByKey(m, base);
    forall k ensures k in m <==> k in base || k in overlay {
      MergedAt(base, overlay, k);
    }
    forall k ensures k in d <==> (k in m && (k !in base || !Same(m[k], base[k]))) {
      AddedAt(base, overlay, k);
    }
    if SameValues(m, base) {
      assert d.Keys == {};
    }
  }

  /** A key is in the difference exactly when merging adds or changes it. */
  lemma {:induction false} AddedAt(base: Values, overlay: Values, k: string)
    ensures var d, m := Diff(base, overlay), Merged(base, overlay);
            k in d <==> (k in m && (k !in base || !Same(m[k], base[k])))
    decreases Dict(overlay), 0
  {
    DiffAt(base, overlay, k);
    MergedAt(base, overlay, k);
    if k in base && k in overlay && base[k].Dict? && overlay[k].Dict? {
      DiffEmptyIffNothingAdded(base[k].entries, overlay[k].entries);
    }
  }

  // ----- nothing in the difference can be left out -----

  /** The path leads through nested maps to an entry. */
  predicate HasPath(v: Values, path: seq<string>)
    decreases |path|
  {
    path != [] && path[0] in v && (|path| == 1 || (v[path[0]].Dict? && HasPath(v[path[0]].entries, path[1..])))
  }

  /** The values without the entry at the path. */
  function Without(v: Values, path: seq<string>): Values
    requires HasPath(v, path)
    decreases |path|
  {
    if |path| == 1 then v - {path[0]} else v[path[0] := Dict(Without(v[path[0]].entries, path[1..]))]
  }

  lemma {:induction false} WithoutDiffers(v: Values, path: seq<string>)
    requires HasPath(v, path)
    ensures !SameValues(Without(v, path), v)
    decreases |path|
  {
    SameByKey(Without(v, path), v);
    if |path| > 1 {
      WithoutDiffers(v[path[0]].entries, path[1..]);
    }
  }

  /** The difference is minimal at every depth: without any one entry, however deeply nested, merging no longer restores
      the values. */
  lemma {:induction false} DiffIsMinimal(base: Values, overlay: Values, path: seq<string>)
    requires HasPath(Diff(base, overlay), path)
    ensures !SameValues(Merged(base, Without(Diff(base, overlay), path)), Merged(base, overlay))
    decreases |path|
  {
    var k, less := path[0], Without(Diff(base, overlay), path);
    DiffAt(base, overlay, k);
    MergedAt(base, less, k);
    MergedAt(base, overlay, k);
    SameByKey(Merged(base, less), Merged(base, overlay));
    if |path| == 1 {
      AddedAt(base, overlay, k);
    } else if k in base && base[k].Dict? && overlay[k].Dict? {
      DiffIsMinimal(base[k].entries, overlay[k].entries, path[1..]);
    } else {
      WithoutDiffers(overlay[k].entries, path[1..]);
    }
  }

  /** The two shortcuts of helmUserSuppliedValues compute the same difference. */
  lemma UserSuppliedIsDiff(config: Values, defaults: Values)
    ensures UserSupplied(config, defaults) == Diff(defaults, config)
  {
    if defaults == map[] {
      assert Diff(defaults, config) == config;
    }
  }
}
