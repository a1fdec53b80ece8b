/** Query strings. Every service builds its query the same way: start from `{}` and, field
    by field in a fixed order, copy an optional value only when it is truthy, numbers
    through `String(n)`. `CopyIfTruthy` is that step once; `Build` folds it over a list of
    named fields, and each service module instantiates `Build` with its own list. */
module Query {
  import opened Base

  datatype Param = Param(key: string, value: string)

  /** A query map in insertion order, as `URLSearchParams` iterates a plain object. */
  type Query = seq<Param>

  /** An optional record field (`x?: string`, `x?: number`, `x?: boolean`); `None` is
      `undefined`. */
  datatype Field = Str(text: Option<string>) | Num(number: Option<int>) | Bool(flag: Option<bool>)

  /** `if (params.x)`: absent fields, `''`, `0` and `false` are all skipped. */
  predicate Truthy(f: Field) {
    match f
    case Str(t) => t.Some? && t.value != ""
    case Num(n) => n.Some? && n.value != 0
    case Bool(b) => b.Some? && b.value
  }

  /** The text stored for a truthy field: a string verbatim, a number through `String(n)`,
      a flag as the literal `'true'`. */
  function Render(f: Field): string
    requires Truthy(f)
  {
    match f
    case Str(t) => t.value
    case Num(n) => IntToString(n.value)
    case Bool(_) => "true"
  }

  /** `if (x) queryParams[key] = render(x)`. */
  function CopyIfTruthy(q: Query, key: string, f: Field): Query {
    if Truthy(f) then q + [Param(key, Render(f))] else q
  }

  /** The query a service builds from its named fields, copied in list order. */
  function Build(fields: seq<(string, Field)>): Query {
    if fields == [] then []
    else
      var last := fields[|fields| - 1];
      CopyIfTruthy(Build(fields[..|fields| - 1]), last.0, last.1)
  }

  /** `URLSearchParams.get(key)`: the value of the first parameter named `key`. */
  function Lookup(q: Query, key: string): Option<string> {
    if q == [] then None
    else if q[0].key == key then Some(q[0].value)
    else Lookup(q[1..], key)
  }

  /** Field `f` reached the query under `key` exactly when it is truthy, as its rendering. */
  predicate Copied(q: Query, key: string, f: Field) {
    Lookup(q, key) == (if Truthy(f) then Some(Render(f)) else None)
  }

  /** No parameter outside `names` appears. */
  predicate KeysWithin(q: Query, names: set<string>) {
    forall i :: 0 <= i < |q| ==> q[i].key in names
  }

  function Names(fields: seq<(string, Field)>): set<string> {
    set i | 0 <= i < |fields| :: fields[i].0
  }

  predicate DistinctKeys(fields: seq<(string, Field)>) {
    forall i, j :: 0 <= i < j < |fields| ==> fields[i].0 != fields[j].0
  }

  lemma {:induction false} LookupAppend(q: Query, p: Param, key: string)
    ensures Lookup(q + [p], key) ==
      if Lookup(q, key).Some? then Lookup(q, key)
      else if p.key == key then Some(p.value)
      else None
  {
    if q != [] {
      assert (q + [p])[1..] == q[1..] + [p];
      LookupAppend(q[1..], p, key);
    }
  }

  lemma {:induction false} BuildAbsent(fields: seq<(string, Field)>, key: string)
    requires key !in Names(fields)
    ensures Lookup(Build(fields), key) == None
  {
    if fields != [] {
      var init := fields[..|fields| - 1];
      var last := fields[|fields| - 1];
      assert Names(init) <= Names(fields) by {
        forall k | k in Names(init) ensures k in Names(fields) {
          var i :| 0 <= i < |init| && init[i].0 == k;
          assert fields[i].0 == k;
        }
      }
      BuildAbsent(init, key);
      if Truthy(last.1) {
        LookupAppend(Build(init), Param(last.0, Render(last.1)), key);
      }
    }
  }

  /** The generic builder's promise: each named field is copied exactly when it is truthy,
      under its own name, as its rendering. */
  lemma {:induction false} BuildCopies(fields: seq<(string, Field)>, i: int)
    requires DistinctKeys(fields) && 0 <= i < |fields|
    ensures Copied(Build(fields), fields[i].0, fields[i].1)
  {
    var n := |fields|;
    var init := fields[..n - 1];
    var last := fields[n - 1];
    if i == n - 1 {
      assert last.0 !in Names(init);
      BuildAbsent(init, last.0);
      if Truthy(last.1) {
        LookupAppend(Build(init), Param(last.0, Render(last.1)), last.0);
      }
    } else {
      assert init[i] == fields[i];
      BuildCopies(init, i);
      if Truthy(last.1) {
        LookupAppend(Build(init), Param(last.0, Render(last.1)), fields[i].0);
      }
    }
  }

  /** ... and no parameter other than the named fields ever appears. */
  lemma {:induction false} BuildKeys(fields: seq<(string, Field)>)
    ensures KeysWithin(Build(fields), Names(fields))
  {
    if fields != [] {
      var init := fields[..|fields| - 1];
      BuildKeys(init);
      forall i | 0 <= i < |init| ensures init[i].0 in Names(fields) {
        assert fields[i].0 == init[i].0;
      }
      assert fields[|fields| - 1].0 in Names(fields);
    }
  }

  /** The builder's whole contract at once, for a field list with distinct names. */
  lemma BuildSpec(fields: seq<(string, Field)>, names: set<string>)
    requires DistinctKeys(fields)
    requires forall i :: 0 <= i < |fields| ==> fields[i].0 in names
    ensures forall i :: 0 <= i < |fields| ==> Copied(Build(fields), fields[i].0, fields[i].1)
    ensures KeysWithin(Build(fields), names)
  {
    forall i | 0 <= i < |fields| ensures Copied(Build(fields), fields[i].0, fields[i].1) {
      BuildCopies(fields, i);
    }
    BuildKeys(fields);
    forall k | k in Names(fields) ensures k in names {
      var i :| 0 <= i < |fields| && fields[i].0 == k;
    }
  }

  /** An absent or falsy field contributes nothing, so a record with every field unset
      builds the empty query. */
  lemma {:induction false} BuildAllFalsy(fields: seq<(string, Field)>)
    requires forall i :: 0 <= i < |fields| ==> !Truthy(fields[i].1)
    ensures Build(fields) == []
  {
    if fields != [] {
      BuildAllFalsy(fields[..|fields| - 1]);
    }
  }

  // ---- The query string (`new URLSearchParams(params).toString()`) ----

  /** One `key=value` pair, each component passed through the form-encoding escape, which
      is library code and a parameter here. */
  function PairText(escape: string -> string, p: Param): string {
    escape(p.key) + "=" + escape(p.value)
  }

  /** The pairs joined by `&`. */
  function Encode(escape: string -> string, q: Query): string {
    if q == [] then ""
    else if |q| == 1 then PairText(escape, q[0])
    else PairText(escape, q[0]) + "&" + Encode(escape, q[1..])
  }

  function PairTexts(escape: string -> string, q: Query): (r: seq<string>)
    ensures |r| == |q|
  {
    seq(|q|, i requires 0 <= i < |q| => PairText(escape, q[i]))
  }

  /** The form-encoding escape never leaves a bare `&` or `=` in a component. */
  ghost predicate SafeEscape(escape: string -> string) {
    forall s :: '&' !in escape(s) && '=' !in escape(s)
  }

  /** One `key=value` pair read back: the key runs to the first `=`. */
  function DecodePair(part: string): Param {
    var key := Split(part, '=')[0];
    if |key| < |part| then Param(key, part[|key| + 1..]) else Param(key, "")
  }

  /** Reads a query string back into its pairs (components still escaped). */
  function Decode(s: string): Query {
    if s == [] then [] else
      var parts := Split(s, '&');
      seq(|parts|, i requires 0 <= i < |parts| => DecodePair(parts[i]))
  }

  function EscapeAll(escape: string -> string, q: Query): (r: Query)
    ensures |r| == |q|
  {
    seq(|q|, i requires 0 <= i < |q| => Param(escape(q[i].key), escape(q[i].value)))
  }

  lemma PairTextHasNoAmpersand(escape: string -> string, p: Param)
    requires SafeEscape(escape)
    ensures '&' !in PairText(escape, p)
  {
    assert '&' !in escape(p.key) && '&' !in escape(p.value);
  }

  lemma {:induction false} SplitEncode(escape: string -> string, q: Query)
    requires SafeEscape(escape) && q != []
    ensures Split(Encode(escape, q), '&') == PairTexts(escape, q)
  {
    PairTextHasNoAmpersand(escape, q[0]);
    if |q| == 1 {
      SplitNoSeparator(PairText(escape, q[0]), '&');
    } else {
      SplitEncode(escape, q[1..]);
      SplitAtFirst(PairText(escape, q[0]), '&', Encode(escape, q[1..]));
      assert PairTexts(escape, q) == [PairText(escape, q[0])] + PairTexts(escape, q[1..]);
    }
  }

  lemma DecodeEncodedPair(k: string, v: string)
    requires '=' !in k
    ensures DecodePair(k + "=" + v) == Param(k, v)
  {
    SplitAtFirst(k, '=', v);
    assert k + "=" + v == k + ['='] + v;
  }

  /** The query string is lossless: reading it back yields every parameter, in order, with
      its escaped key and value. */
  lemma DecodeEncode(escape: string -> string, q: Query)
    requires SafeEscape(escape)
    ensures Decode(Encode(escape, q)) == EscapeAll(escape, q)
  {
    if q != [] {
      var s := Encode(escape, q);
      assert |s| >= |PairText(escape, q[0])| > 0;
      SplitEncode(escape, q);
      forall i | 0 <= i < |q|
        ensures Decode(s)[i] == EscapeAll(escape, q)[i]
      {
        DecodeEncodedPair(escape(q[i].key), escape(q[i].value));
      }
    }
  }
}
