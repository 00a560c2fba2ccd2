/** Batch planning, struct-field resolution, the collection check and name
    quoting shared by the insert and upsert assemblers. */
module Common {
  import opened Values

  /** `psqlMaxParamCount = math.MaxUint16`: the most bound parameters one
      PostgreSQL statement may carry. */
  const MaxParamCount: nat := 65535

  // ---------------------------------------------------------------------------
  // Batch planner

  /** `getBatchingInfo`: (rows per batch, number of batches). Everything fits
      one batch when `dataCount * fieldsCount <= limit`; otherwise a batch holds
      `limit / fieldsCount` rows (floor) and there are as many batches as it
      takes to cover `dataCount` rows (ceiling). The requires rules out a
      split with a batch length of 0, whose float division the source turns
      into an implementation-defined integer. */
  function BatchingInfo(dataCount: nat, fieldsCount: nat, limit: nat): (r: (nat, nat))
    requires dataCount * fieldsCount > limit ==> 1 <= fieldsCount <= limit
    ensures r.0 * fieldsCount <= limit
    ensures r.0 <= dataCount && r.1 >= 1
    ensures dataCount > 0 ==> r.0 >= 1 && r.0 * (r.1 - 1) < dataCount <= r.0 * r.1
    ensures r.1 == 1 <==> dataCount * fieldsCount <= limit
    ensures r.1 == 1 ==> r.0 == dataCount
    ensures dataCount * fieldsCount > limit ==> (r.0 + 1) * fieldsCount > limit
  {
    if dataCount * fieldsCount > limit then
      var batchLen := limit / fieldsCount;
      FloorFits(limit, fieldsCount);
      FloorLargest(limit, fieldsCount);
      SplitBatchShorter(dataCount, fieldsCount, limit);
      CeilDivBounds(dataCount, batchLen);
      (batchLen, (dataCount + batchLen - 1) / batchLen)
    else
      (dataCount, 1)
  }

  /** `limit / f` rows of `f` parameters fit within `limit`, and there is room
      for at least one row when `f <= limit`. */
  lemma FloorFits(limit: nat, f: nat)
    requires 1 <= f
    ensures (limit / f) * f <= limit
    ensures f <= limit ==> limit / f >= 1
  {
    assert limit == f * (limit / f) + limit % f;
  }

  /** One row more than `limit / f` would not fit: the floor is the largest
      batch length within `limit`. */
  lemma FloorLargest(limit: nat, f: nat)
    requires 1 <= f
    ensures (limit / f + 1) * f > limit
  {
    assert limit == f * (limit / f) + limit % f;
  }

  /** When the rows do not fit one statement, a batch is shorter than the data. */
  lemma SplitBatchShorter(dataCount: nat, f: nat, limit: nat)
    requires 1 <= f && dataCount * f > limit
    ensures limit / f < dataCount
  {
    FloorFits(limit, f);
    MulCancel(limit / f, dataCount, f);
  }

  lemma MulCancel(a: nat, b: nat, f: nat)
    requires 1 <= f && a * f < b * f
    ensures a < b
  {
  }

  /** Ceiling division covers `d` with fewer than one spare batch. */
  lemma CeilDivBounds(d: nat, b: nat)
    requires 1 <= b
    ensures var q := (d + b - 1) / b; d > 0 ==> q >= 1 && b * (q - 1) < d <= b * q
    ensures d > 0 || (d + b - 1) / b == 0
  {
    var q := (d + b - 1) / b;
    var m := (d + b - 1) % b;
    assert d + b - 1 == b * q + m;
    assert b * (q - 1) == b * q - b;
  }

  /** The unit-test case: 5000 rows of 15 columns under the PostgreSQL ceiling
      need two batches of 4369 rows. */
  lemma BatchingInfoExample()
    ensures BatchingInfo(5000, 15, MaxParamCount) == (4369, 2)
  {
  }

  // ---------------------------------------------------------------------------
  // Column resolver

  /** A `boil` tag that names a column: neither absent nor the ignore marker. */
  predicate Mapped(tag: string)
  {
    tag != "" && tag != "-"
  }

  /** The `mapping` that getStructFields builds: column tag to field name, over
      the fields in declaration order, so that a later field with the same tag
      replaces an earlier one. */
  function TagMapping(fs: seq<Field>): map<string, string>
  {
    if fs == [] then map[]
    else
      var m := TagMapping(fs[..|fs| - 1]);
      var f := fs[|fs| - 1];
      if Mapped(f.tag) then m[f.tag := f.name] else m
  }

  /** The `fields` list: for each column in order, its mapped field name;
      columns without a mapping are dropped. */
  function Resolve(m: map<string, string>, columns: seq<string>): seq<string>
  {
    if columns == [] then []
    else
      var prefix := Resolve(m, columns[..|columns| - 1]);
      var c := columns[|columns| - 1];
      if c in m then prefix + [m[c]] else prefix
  }

  /** The result of getStructFields on `v`. */
  function StructFields(v: Value, columns: seq<string>): (r: Result<seq<string>>)
    ensures r.Success? <==> Deref(v).Struct?
    ensures r.Failure? ==> r.error == DataNotStruct
    ensures r.Success? ==> |r.value| <= |columns|
  {
    var s := Deref(v);
    if s.Struct? then
      ResolveLength(TagMapping(s.fields), columns);
      Success(Resolve(TagMapping(s.fields), columns))
    else
      Failure(DataNotStruct)
  }

  /** `getStructFields`: fills the tag mapping in one pass over the struct's
      fields, then collects the field of each whitelisted column. */
  method GetStructFields(v: Value, columns: seq<string>) returns (r: Result<seq<string>>)
    ensures r == StructFields(v, columns)
  {
    var obj := v;
    if obj.Ptr? {
      obj := obj.target;
    }
    if !obj.Struct? {
      return Failure(DataNotStruct);
    }
    var fs := obj.fields;
    var mapping: map<string, string> := map[];
    for idx := 0 to |fs|
      invariant mapping == TagMapping(fs[..idx])
    {
      var field := fs[idx];
      assert fs[..idx + 1][..idx] == fs[..idx];
      if Mapped(field.tag) {
        mapping := mapping[field.tag := field.name];
      }
    }
    assert fs[..|fs|] == fs;
    var fields: seq<string> := [];
    for i := 0 to |columns|
      invariant fields == Resolve(mapping, columns[..i])
    {
      assert columns[..i + 1][..i] == columns[..i];
      var column := columns[i];
      if column in mapping {
        fields := fields + [mapping[column]];
      }
    }
    assert columns[..|columns|] == columns;
    return Success(fields);
  }

  /** A column is in the mapping exactly when its tag names a column and some
      field carries it. */
  lemma {:induction false} TagMappingDomain(fs: seq<Field>, c: string)
    ensures c in TagMapping(fs) <==> Mapped(c) && exists i :: 0 <= i < |fs| && fs[i].tag == c
  {
    if fs != [] {
      var init := fs[..|fs| - 1];
      TagMappingDomain(init, c);
      if exists i :: 0 <= i < |init| && init[i].tag == c {
        var i :| 0 <= i < |init| && init[i].tag == c;
        assert fs[i].tag == c;
      }
      if exists i :: 0 <= i < |fs| && fs[i].tag == c {
        var i :| 0 <= i < |fs| && fs[i].tag == c;
        if i < |init| {
          assert init[i].tag == c;
        }
      }
    }
  }

  /** When two fields carry the same tag, the later one wins: a column maps to
      the LAST field tagged with it. */
  lemma {:induction false} TagMappingLastWins(fs: seq<Field>, c: string, i: nat)
    requires i < |fs| && fs[i].tag == c && Mapped(c)
    requires forall j :: i < j < |fs| ==> fs[j].tag != c
    ensures c in TagMapping(fs) && TagMapping(fs)[c] == fs[i].name
  {
    if i < |fs| - 1 {
      var init := fs[..|fs| - 1];
      TagMappingLastWins(init, c, i);
      assert fs[|fs| - 1].tag != c;
    }
  }

  /** Every mapped name is the name of one of the struct's fields. */
  lemma {:induction false} TagMappingNames(fs: seq<Field>, c: string)
    requires c in TagMapping(fs)
    ensures TagMapping(fs)[c] in FieldNames(fs)
  {
    var init := fs[..|fs| - 1];
    var last := fs[|fs| - 1];
    if Mapped(last.tag) && last.tag == c {
      assert FieldNames(fs)[|fs| - 1] == last.name;
    } else {
      TagMappingNames(init, c);
      var k :| 0 <= k < |init| && FieldNames(init)[k] == TagMapping(init)[c];
      assert FieldNames(fs)[k] == FieldNames(init)[k];
    }
  }

  /** Resolution never adds columns, and keeps them all exactly when every
      column has a mapping. */
  lemma {:induction false} ResolveLength(m: map<string, string>, columns: seq<string>)
    ensures |Resolve(m, columns)| <= |columns|
    ensures |Resolve(m, columns)| == |columns| <==> forall k :: 0 <= k < |columns| ==> columns[k] in m
  {
    if columns != [] {
      var init := columns[..|columns| - 1];
      ResolveLength(m, init);
      assert forall k :: 0 <= k < |init| ==> init[k] == columns[k];
    }
  }

  /** Resolution follows the whitelist: resolving two runs of columns one after
      the other is resolving each run and concatenating. */
  lemma {:induction false} ResolveAppend(m: map<string, string>, a: seq<string>, b: seq<string>)
    ensures Resolve(m, a + b) == Resolve(m, a) + Resolve(m, b)
  {
    if b != [] {
      var bInit := b[..|b| - 1];
      assert (a + b)[..|a + b| - 1] == a + bInit;
      ResolveAppend(m, a, bInit);
    } else {
      assert a + b == a;
    }
  }

  /** When every whitelist column has a mapping, the k-th field is the one
      mapped from the k-th column. */
  lemma {:induction false} ResolveAll(m: map<string, string>, columns: seq<string>)
    requires forall k :: 0 <= k < |columns| ==> columns[k] in m
    ensures |Resolve(m, columns)| == |columns|
    ensures forall k :: 0 <= k < |columns| ==> Resolve(m, columns)[k] == m[columns[k]]
  {
    if columns != [] {
      var init := columns[..|columns| - 1];
      assert forall k :: 0 <= k < |init| ==> init[k] == columns[k];
      ResolveAll(m, init);
    }
  }

  /** Every resolved field name is a value of the mapping. */
  lemma {:induction false} ResolveValues(m: map<string, string>, columns: seq<string>, x: string)
    requires x in Resolve(m, columns)
    ensures exists c :: c in columns && c in m && m[c] == x
  {
    var init := columns[..|columns| - 1];
    var c := columns[|columns| - 1];
    if x in Resolve(m, init) {
      ResolveValues(m, init, x);
      var c' :| c' in init && c' in m && m[c'] == x;
      assert c' in columns;
    } else {
      assert c in columns && c in m && m[c] == x;
    }
  }

  /** Every field getStructFields returns is a field of the (dereferenced)
      struct, so reading it by name cannot fail. */
  lemma StructFieldsAreFields(v: Value, columns: seq<string>, f: string)
    requires StructFields(v, columns).Success? && f in StructFields(v, columns).value
    ensures f in FieldNames(Deref(v).fields)
  {
    var fs := Deref(v).fields;
    ResolveValues(TagMapping(fs), columns, f);
    var c :| c in columns && c in TagMapping(fs) && TagMapping(fs)[c] == f;
    TagMappingNames(fs, c);
  }

  /** getStructFields dereferences at most once: a pointer to a pointer to a
      struct is not a struct. */
  lemma StructFieldsDerefOnce(fs: seq<Field>, columns: seq<string>)
    ensures StructFields(Ptr(Ptr(Struct(fs))), columns) == Failure(DataNotStruct)
    ensures StructFields(Ptr(Struct(fs)), columns) == StructFields(Struct(fs), columns)
  {
  }

  // ---------------------------------------------------------------------------
  // Collection check and quoting

  /** The kind test of isSupportedType: an array or a slice, after at most one
      dereference. */
  predicate IsCollection(data: Value)
  {
    Deref(data).Array? || Deref(data).Slice?
  }

  /** `isSupportedType`: the elements of an array or slice, after at most one
      dereference, or None for any other kind. The source panics on a nil
      pointer (it asks the invalid value for its type), hence the requires. */
  function SupportedType(data: Value): (r: Option<seq<Value>>)
    requires !data.Nil?
    ensures r.Some? <==> IsCollection(data)
    ensures r.Some? ==> r.value == Deref(data).elems
  {
    match data
    case Ptr(target) =>
      (match target
       case Array(elems) => Some(elems)
       case Slice(elems) => Some(elems)
       case _ => None)
    case Array(elems) => Some(elems)
    case Slice(elems) => Some(elems)
    case _ => None
  }

  /** A name between double quotes, with no escaping. */
  function Quote(name: string): string
  {
    "\"" + name + "\""
  }

  /** `quoteNames`: each name quoted, in order. */
  function QuoteNames(names: seq<string>): (r: seq<string>)
    ensures |r| == |names|
    ensures forall i :: 0 <= i < |names| ==> r[i] == "\"" + names[i] + "\""
  {
    if names == [] then [] else [Quote(names[0])] + QuoteNames(names[1..])
  }

  /** Quoting loses nothing: stripping the first and last character of each
      quoted name gives back the names. */
  lemma QuoteNamesInvertible(names: seq<string>)
    ensures forall i :: 0 <= i < |names| ==>
      |QuoteNames(names)[i]| == |names[i]| + 2 && QuoteNames(names)[i][1..|names[i]| + 1] == names[i]
  {
  }
}
