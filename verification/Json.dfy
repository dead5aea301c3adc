/**
 JSON values and their canonical form.

 Objects are sequences of fields with distinct keys, so that the order a producer chose is
 visible; RFC 8259, section 4, calls an object unordered. `Canon` is the recursive key sort
 applied before hashing. It is proved to be a complete normal form for equality up to key
 order at every depth.
 */
module Json {
  datatype Number = Int(i: int) | Float(f: real)

  datatype Value =
    | Null
    | Bool(b: bool)
    | Num(n: Number)
    | Str(s: string)
    | Arr(items: seq<Value>)
    | Obj(fields: seq<Field>)

  datatype Field = Field(key: string, val: Value)

  /** Lexicographic order by code point, which is how Rust compares strings. */
  predicate Before(a: string, b: string) {
    b != [] && (a == [] || a[0] < b[0] || (a[0] == b[0] && Before(a[1..], b[1..])))
  }

  lemma {:induction false} BeforeTotal(a: string, b: string)
    ensures a == b || Before(a, b) || Before(b, a)
    ensures !(Before(a, b) && Before(b, a))
    ensures a == b ==> !Before(a, b)
  {
    if a != [] && b != [] && a[0] == b[0] {
      BeforeTotal(a[1..], b[1..]);
      if a[1..] == b[1..] { assert a == [a[0]] + a[1..] && b == [b[0]] + b[1..]; }
    }
  }

  lemma {:induction false} BeforeTransitive(a: string, b: string, c: string)
    requires Before(a, b) && Before(b, c)
    ensures Before(a, c)
  {
    if a != [] && a[0] == b[0] && b[0] == c[0] {
      BeforeTransitive(a[1..], b[1..], c[1..]);
    }
  }

  function Insert(f: Field, fields: seq<Field>): seq<Field> {
    if fields == [] || Before(f.key, fields[0].key) then [f] + fields
    else [fields[0]] + Insert(f, fields[1..])
  }

  function SortFields(fields: seq<Field>): seq<Field> {
    if fields == [] then [] else Insert(fields[0], SortFields(fields[1..]))
  }

  /** Sort the keys of every object, at every depth; leave array order alone. */
  function Canon(v: Value): Value {
    match v
    case Arr(items) => Arr(seq(|items|, i requires 0 <= i < |items| => Canon(items[i])))
    case Obj(fields) => Obj(SortFields(CanonFields(fields)))
    case _ => v
  }

  function CanonFields(fields: seq<Field>): seq<Field> {
    seq(|fields|, i requires 0 <= i < |fields| => Field(fields[i].key, Canon(fields[i].val)))
  }

  predicate DistinctKeys(fields: seq<Field>) {
    forall i, j :: 0 <= i < j < |fields| ==> fields[i].key != fields[j].key
  }

  predicate Ascending(fields: seq<Field>) {
    forall i, j :: 0 <= i < j < |fields| ==> Before(fields[i].key, fields[j].key)
  }

  predicate WellFormed(v: Value) {
    match v
    case Arr(items) => forall i :: 0 <= i < |items| ==> WellFormed(items[i])
    case Obj(fields) => DistinctKeys(fields) && forall i :: 0 <= i < |fields| ==> WellFormed(fields[i].val)
    case _ => true
  }

  predicate SortedDeep(v: Value) {
    match v
    case Arr(items) => forall i :: 0 <= i < |items| ==> SortedDeep(items[i])
    case Obj(fields) => Ascending(fields) && forall i :: 0 <= i < |fields| ==> SortedDeep(fields[i].val)
    case _ => true
  }

  /** Equality up to object-key order at every depth: an independent definition. */
  ghost predicate Equiv(a: Value, b: Value)
    decreases a
  {
    match (a, b)
    case (Arr(x), Arr(y)) => |x| == |y| && forall i :: 0 <= i < |x| ==> Equiv(x[i], y[i])
    case (Obj(f), Obj(g)) => (forall x :: x in f ==> FieldIn(x, g)) && (forall y :: y in g ==> FieldOf(f, y))
    case _ => a == b
  }

  ghost predicate FieldIn(x: Field, g: seq<Field>)
    decreases x
  {
    exists y :: y in g && x.key == y.key && Equiv(x.val, y.val)
  }

  ghost predicate FieldOf(f: seq<Field>, y: Field)
    decreases f
  {
    exists x :: x in f && x.key == y.key && Equiv(x.val, y.val)
  }

  /******* Sorting *******/

  lemma {:induction false} InsertKeeps(f: Field, fields: seq<Field>)
    ensures |Insert(f, fields)| == |fields| + 1
    ensures forall x :: x in Insert(f, fields) <==> x == f || x in fields
  {
    if fields != [] && !Before(f.key, fields[0].key) {
      InsertKeeps(f, fields[1..]);
    }
  }

  lemma {:induction false} InsertAscending(f: Field, fields: seq<Field>)
    requires Ascending(fields) && forall x :: x in fields ==> x.key != f.key
    ensures Ascending(Insert(f, fields))
  {
    var r := Insert(f, fields);
    if fields == [] {
    } else if Before(f.key, fields[0].key) {
      forall j | 0 < j < |r| ensures Before(r[0].key, r[j].key) {
        if j > 1 { BeforeTransitive(f.key, fields[0].key, fields[j - 1].key); }
      }
    } else {
      BeforeTotal(f.key, fields[0].key);
      InsertAscending(f, fields[1..]);
      InsertKeeps(f, fields[1..]);
      forall j | 0 < j < |r| ensures Before(r[0].key, r[j].key) {
        assert r[j] in Insert(f, fields[1..]);
        if r[j] != f {
          var k :| 0 < k < |fields| && fields[k] == r[j];
        } else {
          assert fields[0] in fields;
        }
      }
    }
  }

  lemma {:induction false} SortKeeps(fields: seq<Field>)
    ensures |SortFields(fields)| == |fields|
    ensures forall x :: x in SortFields(fields) <==> x in fields
    ensures DistinctKeys(fields) ==> Ascending(SortFields(fields))
  {
    if fields != [] {
      SortKeeps(fields[1..]);
      InsertKeeps(fields[0], SortFields(fields[1..]));
      if DistinctKeys(fields) {
        forall x | x in SortFields(fields[1..]) ensures x.key != fields[0].key {
          var k :| 0 < k < |fields| && fields[k] == x;
        }
        InsertAscending(fields[0], SortFields(fields[1..]));
      }
    }
  }

  lemma {:induction false} AscendingFixed(fields: seq<Field>)
    requires Ascending(fields)
    ensures SortFields(fields) == fields
  {
    if fields != [] {
      AscendingFixed(fields[1..]);
      assert fields == [fields[0]] + fields[1..];
    }
  }

  lemma AscendingDistinct(fields: seq<Field>)
    requires Ascending(fields)
    ensures DistinctKeys(fields)
  {
    forall i, j | 0 <= i < j < |fields| ensures fields[i].key != fields[j].key {
      BeforeTotal(fields[i].key, fields[j].key);
    }
  }

  // An ascending sequence is determined by its elements.
  lemma {:induction false} AscendingUnique(x: seq<Field>, y: seq<Field>)
    requires Ascending(x) && Ascending(y) && forall f :: f in x <==> f in y
    ensures x == y
  {
    assert x != [] ==> x[0] in y;
    assert y != [] ==> y[0] in x;
    if x != [] {
      AscendingDistinct(x);
      AscendingDistinct(y);
      BeforeTotal(x[0].key, y[0].key);
      assert x[0] == y[0];
      forall f ensures f in x[1..] <==> f in y[1..] {
        if f in x[1..] { assert f in x && f != x[0]; }
        if f in y[1..] { assert f in y && f != y[0]; }
      }
      AscendingUnique(x[1..], y[1..]);
      assert x == [x[0]] + x[1..] && y == [y[0]] + y[1..];
    }
  }

  /******* The normal form *******/

  lemma CanonFieldsDistinct(fields: seq<Field>)
    requires DistinctKeys(fields)
    ensures DistinctKeys(CanonFields(fields))
  {
    var c := CanonFields(fields);
    assert forall i :: 0 <= i < |fields| ==> c[i].key == fields[i].key;
  }

  /** The canonical form has its keys in ascending order at every depth. */
  lemma {:induction false} CanonSorted(v: Value)
    requires WellFormed(v)
    ensures SortedDeep(Canon(v))
  {
    match v
    case Arr(items) =>
      forall i | 0 <= i < |items| ensures SortedDeep(Canon(items[i])) { CanonSorted(items[i]); }
    case Obj(fields) =>
      var c := CanonFields(fields);
      CanonFieldsDistinct(fields);
      SortKeeps(c);
      forall k | 0 <= k < |SortFields(c)| ensures SortedDeep(SortFields(c)[k].val) {
        assert SortFields(c)[k] in c;
        var i :| 0 <= i < |c| && c[i] == SortFields(c)[k];
        CanonSorted(fields[i].val);
      }
    case _ =>
  }

  /** A value whose keys are already in order is its own canonical form. */
  lemma {:induction false} SortedIsFixed(v: Value)
    requires SortedDeep(v)
    ensures Canon(v) == v
  {
    match v
    case Arr(items) =>
      forall i | 0 <= i < |items| ensures Canon(items[i]) == items[i] { SortedIsFixed(items[i]); }
      assert Canon(v).items == items;
    case Obj(fields) =>
      forall i | 0 <= i < |fields| ensures Canon(fields[i].val) == fields[i].val { SortedIsFixed(fields[i].val); }
      assert CanonFields(fields) == fields;
      AscendingFixed(fields);
    case _ =>
  }

  lemma CanonIdempotent(v: Value)
    requires WellFormed(v)
    ensures Canon(Canon(v)) == Canon(v)
  {
    CanonSorted(v);
    SortedIsFixed(Canon(v));
  }

  function CanonField(x: Field): Field {
    Field(x.key, Canon(x.val))
  }

  lemma CanonFieldsMembers(fields: seq<Field>, c: Field)
    ensures c in CanonFields(fields) <==> exists x :: x in fields && CanonField(x) == c
  {
    var cs := CanonFields(fields);
    if c in cs {
      var i :| 0 <= i < |cs| && cs[i] == c;
      assert fields[i] in fields && CanonField(fields[i]) == c;
    }
    if x :| x in fields && CanonField(x) == c {
      var i :| 0 <= i < |fields| && fields[i] == x;
      assert cs[i] == c;
    }
  }

  // Canonical objects are equal exactly when their canonical fields are the same set.
  lemma SortedEqualIffSameMembers(f: seq<Field>, g: seq<Field>)
    requires DistinctKeys(f) && DistinctKeys(g)
    ensures SortFields(f) == SortFields(g) <==> forall c :: c in f <==> c in g
  {
    SortKeeps(f);
    SortKeeps(g);
    if forall c :: c in f <==> c in g {
      forall c ensures c in SortFields(f) <==> c in SortFields(g) { assert c in f <==> c in g; }
      AscendingUnique(SortFields(f), SortFields(g));
    }
    if SortFields(f) == SortFields(g) {
      forall c ensures c in f <==> c in g { assert c in SortFields(f) <==> c in SortFields(g); }
    }
  }

  lemma {:induction false} ArraysAgree(a: Value, b: Value)
    requires a.Arr? && b.Arr? && WellFormed(a) && WellFormed(b)
    ensures Canon(a) == Canon(b) <==> Equiv(a, b)
    decreases a, 0
  {
    var x, y, cx, cy := a.items, b.items, Canon(a).items, Canon(b).items;
    assert |cx| == |x| && |cy| == |y|;
    if |x| == |y| {
      forall i | 0 <= i < |x| ensures cx[i] == cy[i] <==> Equiv(x[i], y[i]) {
        CanonIsCompleteNormalForm(x[i], y[i]);
      }
    }
  }

  lemma {:induction false} FieldAgrees(x: Field, g: seq<Field>)
    requires WellFormed(x.val) && forall y :: y in g ==> WellFormed(y.val)
    ensures FieldIn(x, g) <==> CanonField(x) in CanonFields(g)
    decreases x
  {
    CanonFieldsMembers(g, CanonField(x));
    forall y | y in g ensures Equiv(x.val, y.val) <==> Canon(x.val) == Canon(y.val) {
      CanonIsCompleteNormalForm(x.val, y.val);
    }
  }

  lemma {:induction false} FieldAgreesBack(f: seq<Field>, y: Field)
    requires WellFormed(y.val) && forall x :: x in f ==> WellFormed(x.val)
    ensures FieldOf(f, y) <==> CanonField(y) in CanonFields(f)
    decreases f
  {
    CanonFieldsMembers(f, CanonField(y));
    forall x | x in f ensures Equiv(x.val, y.val) <==> Canon(x.val) == Canon(y.val) {
      CanonIsCompleteNormalForm(x.val, y.val);
    }
  }

  lemma SameMembersFieldwise(f: seq<Field>, g: seq<Field>)
    ensures (forall c :: c in CanonFields(f) <==> c in CanonFields(g)) <==>
            (forall x :: x in f ==> CanonField(x) in CanonFields(g)) &&
            (forall y :: y in g ==> CanonField(y) in CanonFields(f))
  {
    forall c ensures c in CanonFields(f) <==> exists x :: x in f && CanonField(x) == c { CanonFieldsMembers(f, c); }
    forall c ensures c in CanonFields(g) <==> exists y :: y in g && CanonField(y) == c { CanonFieldsMembers(g, c); }
  }

  lemma {:induction false} ObjectsAgree(a: Value, b: Value)
    requires a.Obj? && b.Obj? && WellFormed(a) && WellFormed(b)
    ensures Canon(a) == Canon(b) <==> Equiv(a, b)
    decreases a, 0
  {
    var f, g := a.fields, b.fields;
    CanonFieldsDistinct(f);
    CanonFieldsDistinct(g);
    SortedEqualIffSameMembers(CanonFields(f), CanonFields(g));
    SameMembersFieldwise(f, g);
    forall x | x in f ensures FieldIn(x, g) <==> CanonField(x) in CanonFields(g) { FieldAgrees(x, g); }
    forall y | y in g ensures FieldOf(f, y) <==> CanonField(y) in CanonFields(f) { FieldAgreesBack(f, y); }
  }

  /** `Canon` decides equality up to key order at every depth. */
  lemma {:induction false} CanonIsCompleteNormalForm(a: Value, b: Value)
    requires WellFormed(a) && WellFormed(b)
    ensures Canon(a) == Canon(b) <==> Equiv(a, b)
    decreases a, 1
  {
    match (a, b)
    case (Arr(_), Arr(_)) => ArraysAgree(a, b);
    case (Obj(_), Obj(_)) => ObjectsAgree(a, b);
    case _ =>
  }

  lemma {:induction false} SortedIsWellFormed(v: Value)
    requires SortedDeep(v)
    ensures WellFormed(v)
  {
    match v
    case Arr(items) => forall i | 0 <= i < |items| ensures WellFormed(items[i]) { SortedIsWellFormed(items[i]); }
    case Obj(fields) =>
      AscendingDistinct(fields);
      forall i | 0 <= i < |fields| ensures WellFormed(fields[i].val) { SortedIsWellFormed(fields[i].val); }
    case _ =>
  }

  /** Canonicalizing changes nothing but key order. */
  lemma CanonKeepsMeaning(v: Value)
    requires WellFormed(v)
    ensures Equiv(v, Canon(v))
  {
    CanonSorted(v);
    SortedIsWellFormed(Canon(v));
    CanonIdempotent(v);
    CanonIsCompleteNormalForm(v, Canon(v));
  }
}
