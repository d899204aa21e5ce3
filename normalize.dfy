/** The value normaliser that runs on every record before it is sent to the graph store
    (convert_numpy_types in load_to_mem.py). A record read from a parquet file may hold numpy
    scalars and arrays; the store only accepts Python's native ints, floats, strings, lists and
    dicts. */
module TypeNormalizer {

  /** One element of a numeric numpy array: an integer or floating item, or, for a
      multi-dimensional array, a nested row of items. */
  datatype ArrayItem = IntItem(i: int) | FloatItem(x: real) | Row(items: seq<ArrayItem>)

  /** The values a record field can hold. Floats are modelled by exact reals. A dict is an
      insertion-ordered sequence of (key, value) pairs, as Python dicts keep insertion order. */
  datatype Value =
    | NdArray(items: seq<ArrayItem>)        // numpy.ndarray
    | NpInteger(i: int)                      // an instance of numpy.integer
    | NpFloating(x: real)                    // an instance of numpy.floating
    | Dict(entries: seq<(string, Value)>)
    | List(elems: seq<Value>)
    | Tuple(elems: seq<Value>)
    | Int(i: int)
    | Float(x: real)
    | Bool(b: bool)
    | Str(s: string)
    | NoneValue

  /** The numpy kinds the converter rewrites at the top level. */
  predicate IsNumpy(v: Value) {
    v.NdArray? || v.NpInteger? || v.NpFloating?
  }

  /** No numpy value is reachable through dict values and list elements. Tuples are
      opaque here, exactly as the converter does not look inside them. */
  predicate Normalized(v: Value) {
    match v
    case NdArray(_) => false
    case NpInteger(_) => false
    case NpFloating(_) => false
    case Dict(es) => forall k :: 0 <= k < |es| ==> Normalized(es[k].1)
    case List(xs) => forall k :: 0 <= k < |xs| ==> Normalized(xs[k])
    case _ => true
  }

  /** The keys of an insertion-ordered dict, in order. */
  function KeysOf(es: seq<(string, Value)>): (ks: seq<string>)
    ensures |ks| == |es|
    ensures forall k :: 0 <= k < |es| ==> ks[k] == es[k].0
  {
    seq(|es|, k requires 0 <= k < |es| => es[k].0)
  }

  /** One item of ndarray.tolist(): an item becomes the matching native scalar and a nested row
      a native list, recursively. */
  function ItemValue(it: ArrayItem): (r: Value)
    ensures Normalized(r)
    ensures it.IntItem? ==> r == Int(it.i)
    ensures it.FloatItem? ==> r == Float(it.x)
    ensures it.Row? ==> r.List? && |r.elems| == |it.items|
  {
    match it
    case IntItem(i) => Int(i)
    case FloatItem(x) => Float(x)
    case Row(row) => List(seq(|row|, k requires 0 <= k < |row| => ItemValue(row[k])))
  }

  /** ndarray.tolist(): the items, in order, as native values. */
  function ToList(items: seq<ArrayItem>): (r: seq<Value>)
    ensures |r| == |items|
    ensures forall k :: 0 <= k < |r| ==> r[k] == ItemValue(items[k]) && Normalized(r[k])
  {
    seq(|items|, k requires 0 <= k < |items| => ItemValue(items[k]))
  }

  /** convert_numpy_types. */
  function Convert(v: Value): (r: Value)
    ensures Normalized(r)
    ensures v.NpInteger? ==> r == Int(v.i)
    ensures v.NpFloating? ==> r == Float(v.x)
    ensures v.NdArray? ==> r.List? && |r.elems| == |v.items|
    ensures v.Dict? ==> r.Dict? && KeysOf(r.entries) == KeysOf(v.entries)
    ensures v.List? ==> r.List? && |r.elems| == |v.elems|
    ensures !IsNumpy(v) && !v.Dict? && !v.List? ==> r == v
  {
    match v
    case NdArray(items) => List(ToList(items))
    case NpInteger(i) => Int(i)
    case NpFloating(x) => Float(x)
    case Dict(es) =>
      Dict(seq(|es|, k requires 0 <= k < |es| => (es[k].0, Convert(es[k].1))))
    case List(xs) =>
      List(seq(|xs|, k requires 0 <= k < |xs| => Convert(xs[k])))
    case _ => v
  }

  /** The per-record comprehension of batched_import: every record of a batch converted, in order. */
  function ConvertRecords(records: seq<Value>): (r: seq<Value>)
    ensures |r| == |records|
    ensures forall k :: 0 <= k < |r| ==> r[k] == Convert(records[k]) && Normalized(r[k])
  {
    seq(|records|, k requires 0 <= k < |records| => Convert(records[k]))
  }

  /** Dicts and lists are converted element by element, with keys and order kept. */
  lemma ConvertElementwise(v: Value)
    ensures v.Dict? ==> forall k :: 0 <= k < |v.entries| ==>
      Convert(v).entries[k] == (v.entries[k].0, Convert(v.entries[k].1))
    ensures v.List? ==> forall k :: 0 <= k < |v.elems| ==>
      Convert(v).elems[k] == Convert(v.elems[k])
  {
  }

  /** A value with no numpy part left is returned unchanged. */
  lemma {:induction false} NormalizedIsFixpoint(v: Value)
    requires Normalized(v)
    ensures Convert(v) == v
  {
    match v
    case Dict(es) =>
      forall k | 0 <= k < |es| ensures Convert(es[k].1) == es[k].1 {
        NormalizedIsFixpoint(es[k].1);
      }
      assert Convert(v).entries == es;
    case List(xs) =>
      forall k | 0 <= k < |xs| ensures Convert(xs[k]) == xs[k] {
        NormalizedIsFixpoint(xs[k]);
      }
      assert Convert(v).elems == xs;
    case _ =>
  }

  /** Normalising twice is the same as normalising once. */
  lemma ConvertIdempotent(v: Value)
    ensures Convert(Convert(v)) == Convert(v)
  {
    NormalizedIsFixpoint(Convert(v));
  }

  /** A normalised value is exactly a value the converter leaves alone. */
  lemma NormalizedIffFixed(v: Value)
    ensures Normalized(v) <==> Convert(v) == v
  {
    if Normalized(v) {
      NormalizedIsFixpoint(v);
    }
  }
}
