/** Recursive renaming of the keys of a JSON-like value. */
module MapObject {
  import opened Wrappers

  /** `Instance` is an object that is not a plain record (a Date, say), with its own enumerable keys. */
  datatype Node =
    | Leaf(id: int)
    | Record(fields: seq<Field>)
    | Array(items: seq<Node>)
    | Instance(fields: seq<Field>)

  datatype Field = Field(key: string, value: Node)

  type Renaming = string -> string

  /** `result[key] = value`: replaces in place, or adds at the end. */
  function Put(fields: seq<Field>, key: string, value: Node): seq<Field> {
    if exists i :: 0 <= i < |fields| && fields[i].key == key
    then seq(|fields|, i requires 0 <= i < |fields| => if fields[i].key == key then Field(key, value) else fields[i])
    else fields + [Field(key, value)]
  }

  /** `caseTransform` on the fields of a record. */
  function CaseTransform(fields: seq<Field>, f: Renaming): seq<Field>
    decreases fields, 0
  {
    if fields == [] then [] else
    var last := fields[|fields| - 1];
    Put(CaseTransform(fields[..|fields| - 1], f), f(last.key), TransformValue(last.value, f))
  }

  function TransformValue(v: Node, f: Renaming): Node
    decreases v, 1
  {
    match v
    case Record(fields) => Record(CaseTransform(fields, f))
    case Array(items) => Array(seq(|items|, i requires 0 <= i < |items| => TransformItem(items[i], f)))
    case _ => v
  }

  /** An item of an array: every object in it is treated as a record, an inner array included, whose
      keys are its indices. */
  function TransformItem(v: Node, f: Renaming): Node
    decreases v, 1
  {
    match v
    case Record(fields) => Record(CaseTransform(fields, f))
    case Instance(fields) => Record(CaseTransform(fields, f))
    case Array(items) => Record(TransformIndexed(items, f))
    case Leaf(_) => v
  }

  function TransformIndexed(items: seq<Node>, f: Renaming): seq<Field>
    decreases items, 0
  {
    if items == [] then [] else
    var n := |items| - 1;
    Put(TransformIndexed(items[..n], f), f(Decimal(n)), TransformValue(items[n], f))
  }

  /** The source's loop over the keys. */
  method CaseTransformLoop(fields: seq<Field>, f: Renaming) returns (result: seq<Field>)
    ensures result == CaseTransform(fields, f)
    decreases fields, 0
  {
    result := [];
    var i := 0;
    while i < |fields|
      invariant 0 <= i <= |fields|
      invariant result == CaseTransform(fields[..i], f)
    {
      var key, value := fields[i].key, fields[i].value;
      var transformed := TransformOne(value, f, fields);
      result := Put(result, f(key), transformed);
      assert fields[..i + 1][..i] == fields[..i];
      i := i + 1;
    }
    assert fields[..i] == fields;
  }

  method TransformOne(v: Node, f: Renaming, ghost within: seq<Field>) returns (r: Node)
    requires exists i :: 0 <= i < |within| && within[i].value == v
    ensures r == TransformValue(v, f)
    decreases v, 1
  {
    match v
    case Record(fields) =>
      var inner := CaseTransformLoop(fields, f);
      return Record(inner);
    case Array(items) =>
      var mapped := [];
      for i := 0 to |items|
        invariant mapped == seq(i, j requires 0 <= j < i => TransformItem(items[j], f))
      {
        var item;
        match items[i] {
          case Record(fs) => var inner := CaseTransformLoop(fs, f); item := Record(inner);
          case Instance(fs) => var inner := CaseTransformLoop(fs, f); item := Record(inner);
          case Array(xs) => item := Record(TransformIndexed(xs, f));
          case Leaf(_) => item := items[i];
        }
        mapped := mapped + [item];
      }
      return Array(mapped);
    case _ => return v;
  }

  // ---- JSON-like values ----

  predicate DistinctKeys(fields: seq<Field>) {
    forall i, j :: 0 <= i < j < |fields| ==> fields[i].key != fields[j].key
  }

  /** The renaming keeps the record's keys apart. */
  predicate KeepsApart(fields: seq<Field>, f: Renaming) {
    forall i, j :: 0 <= i < j < |fields| ==> f(fields[i].key) != f(fields[j].key)
  }

  /** No array and no Date directly inside an array, and every record's keys stay apart. */
  predicate Renamable(v: Node, f: Renaming) {
    match v
    case Leaf(_) => true
    case Record(fields) => KeepsApart(fields, f) && forall i :: 0 <= i < |fields| ==> Renamable(fields[i].value, f)
    case Array(items) => forall i :: 0 <= i < |items| ==> !items[i].Array? && !items[i].Instance? && Renamable(items[i], f)
    case Instance(_) => true
  }

  predicate HasKey(fields: seq<Field>, key: string) {
    exists i :: 0 <= i < |fields| && fields[i].key == key
  }

  lemma {:induction false} TransformedKeys(fields: seq<Field>, f: Renaming, key: string)
    ensures HasKey(CaseTransform(fields, f), key) <==> exists i :: 0 <= i < |fields| && f(fields[i].key) == key
    decreases |fields|
  {
    if fields != [] {
      var n := |fields| - 1;
      var init, last := CaseTransform(fields[..n], f), fields[n];
      TransformedKeys(fields[..n], f, key);
      PutKeys(init, f(last.key), TransformValue(last.value, f), key);
      if HasKey(init, key) {
        var i :| 0 <= i < n && f(fields[..n][i].key) == key;
        assert f(fields[i].key) == key;
      } else if exists i :: 0 <= i < |fields| && f(fields[i].key) == key {
        var i :| 0 <= i < |fields| && f(fields[i].key) == key;
        assert i < n ==> f(fields[..n][i].key) == key;
      }
    }
  }

  lemma PutKeys(fields: seq<Field>, key: string, value: Node, k: string)
    ensures HasKey(Put(fields, key, value), k) <==> HasKey(fields, k) || k == key
    ensures |Put(fields, key, value)| == |fields| + (if HasKey(fields, key) then 0 else 1)
  {
    var r := Put(fields, key, value);
    if HasKey(fields, k) {
      var i :| 0 <= i < |fields| && fields[i].key == k;
      assert r[i].key == k;
    }
    if HasKey(fields, key) {
      var i :| 0 <= i < |fields| && fields[i].key == key;
      assert r[i].key == key;
      if HasKey(r, k) {
        var j :| 0 <= j < |r| && r[j].key == k;
        assert fields[j].key == k;
      }
    } else {
      assert r[|fields|].key == key;
    }
  }

  lemma KeepsApartSnoc(fields: seq<Field>, f: Renaming)
    requires fields != []
    ensures var n := |fields| - 1;
            KeepsApart(fields, f) <==>
            KeepsApart(fields[..n], f) && !exists i :: 0 <= i < n && f(fields[..n][i].key) == f(fields[n].key)
  {
    var n := |fields| - 1;
    forall i | 0 <= i < n ensures fields[..n][i] == fields[i] {}
  }

  /** A record keeps its size exactly when the renaming keeps its keys apart; otherwise it shrinks. */
  lemma {:induction false} SizeKeptIff(fields: seq<Field>, f: Renaming)
    ensures |CaseTransform(fields, f)| <= |fields|
    ensures |CaseTransform(fields, f)| == |fields| <==> KeepsApart(fields, f)
    decreases |fields|
  {
    if fields != [] {
      var n := |fields| - 1;
      var init, last := CaseTransform(fields[..n], f), fields[n];
      SizeKeptIff(fields[..n], f);
      TransformedKeys(fields[..n], f, f(last.key));
      PutKeys(init, f(last.key), TransformValue(last.value, f), f(last.key));
      KeepsApartSnoc(fields, f);
    }
  }

  /** Then the result is the record renamed field by field. */
  lemma {:induction false} FieldByField(fields: seq<Field>, f: Renaming)
    requires KeepsApart(fields, f)
    ensures |CaseTransform(fields, f)| == |fields|
    ensures forall i :: 0 <= i < |fields| ==>
              CaseTransform(fields, f)[i] == Field(f(fields[i].key), TransformValue(fields[i].value, f))
    decreases |fields|
  {
    SizeKeptIff(fields, f);
    if fields != [] {
      var n := |fields| - 1;
      FieldByField(fields[..n], f);
      TransformedKeys(fields[..n], f, f(fields[n].key));
    }
  }

  lemma ItemIsValue(v: Node, f: Renaming)
    requires !v.Array? && !v.Instance?
    ensures TransformItem(v, f) == TransformValue(v, f)
  {
  }

  // ---- leaves and paths ----

  datatype Step = Key(key: string) | Index(i: nat)

  function Find(fields: seq<Field>, key: string): Option<Node> {
    if fields == [] then None
    else if fields[0].key == key then Some(fields[0].value)
    else Find(fields[1..], key)
  }

  function LeafAt(v: Node, path: seq<Step>): Option<int>
    decreases |path|
  {
    if path == [] then (if v.Leaf? then Some(v.id) else None)
    else if v.Record? && path[0].Key? then
      var field := Find(v.fields, path[0].key);
      if field.Some? then LeafAt(field.value, path[1..]) else None
    else if v.Array? && path[0].Index? && path[0].i < |v.items| then LeafAt(v.items[path[0].i], path[1..])
    else None
  }

  function RenamePath(path: seq<Step>, f: Renaming): seq<Step> {
    seq(|path|, i requires 0 <= i < |path| => if path[i].Key? then Key(f(path[i].key)) else path[i])
  }

  lemma {:induction false} FindMeaning(fields: seq<Field>, key: string)
    ensures Find(fields, key).Some? ==>
              exists i :: 0 <= i < |fields| && fields[i] == Field(key, Find(fields, key).value)
    ensures Find(fields, key).None? ==> !HasKey(fields, key)
  {
    if fields != [] && fields[0].key != key {
      FindMeaning(fields[1..], key);
      if Find(fields, key).Some? {
        var i :| 0 <= i < |fields[1..]| && fields[1..][i] == Field(key, Find(fields, key).value);
        assert fields[i + 1] == Field(key, Find(fields, key).value);
      } else {
        forall i | 0 <= i < |fields| ensures fields[i].key != key {
          assert i > 0 ==> fields[i] == fields[1..][i - 1];
        }
      }
    } else if fields != [] {
      assert fields[0] == Field(key, Find(fields, key).value);
    }
  }

  lemma {:induction false} FindAt(fields: seq<Field>, i: nat)
    requires DistinctKeys(fields) && i < |fields|
    ensures Find(fields, fields[i].key) == Some(fields[i].value)
  {
    if i > 0 {
      assert fields[1..][i - 1] == fields[i];
      FindAt(fields[1..], i - 1);
    }
  }

  lemma TransformedDistinct(fields: seq<Field>, f: Renaming)
    requires KeepsApart(fields, f)
    ensures DistinctKeys(CaseTransform(fields, f)) && DistinctKeys(fields)
  {
    FieldByField(fields, f);
  }

  /** Every leaf is found again at its renamed path. */
  lemma {:induction false} LeafKept(v: Node, f: Renaming, path: seq<Step>)
    requires Renamable(v, f) && LeafAt(v, path).Some?
    ensures LeafAt(TransformValue(v, f), RenamePath(path, f)) == LeafAt(v, path)
    decreases |path|
  {
    if path != [] {
      var rest := path[1..];
      assert RenamePath(path, f)[1..] == RenamePath(rest, f);
      if v.Record? {
        FindMeaning(v.fields, path[0].key);
        var i :| 0 <= i < |v.fields| && v.fields[i] == Field(path[0].key, Find(v.fields, path[0].key).value);
        FieldByField(v.fields, f);
        TransformedDistinct(v.fields, f);
        FindAt(CaseTransform(v.fields, f), i);
        LeafKept(v.fields[i].value, f, rest);
      } else {
        ItemIsValue(v.items[path[0].i], f);
        LeafKept(v.items[path[0].i], f, rest);
      }
    }
  }

  lemma RenameLonger(step: Step, rest: seq<Step>, f: Renaming)
    ensures RenamePath([step] + rest, f) == RenamePath([step], f) + RenamePath(rest, f)
    ensures ([step] + rest)[1..] == rest
  {
  }

  lemma RecordField(v: Node, f: Renaming, key: string) returns (i: nat)
    requires v.Record? && KeepsApart(v.fields, f) && Find(CaseTransform(v.fields, f), key).Some?
    ensures i < |v.fields| && f(v.fields[i].key) == key
    ensures Find(CaseTransform(v.fields, f), key).value == TransformValue(v.fields[i].value, f)
    ensures Find(v.fields, v.fields[i].key) == Some(v.fields[i].value)
  {
    var fields := CaseTransform(v.fields, f);
    FindMeaning(fields, key);
    i :| 0 <= i < |fields| && fields[i] == Field(key, Find(fields, key).value);
    FieldByField(v.fields, f);
    TransformedDistinct(v.fields, f);
    FindAt(v.fields, i);
  }

  /** And there are no others: a leaf of the result sits at the renamed path of an original leaf. */
  lemma {:induction false} NoNewLeaf(v: Node, f: Renaming, path: seq<Step>) returns (original: seq<Step>)
    requires Renamable(v, f) && LeafAt(TransformValue(v, f), path).Some?
    ensures RenamePath(original, f) == path && LeafAt(v, original) == LeafAt(TransformValue(v, f), path)
    decreases |path|
  {
    if path == [] {
      original := [];
    } else {
      assert path == [path[0]] + path[1..];
      var rest;
      if v.Record? {
        var i := RecordField(v, f, path[0].key);
        rest := NoNewLeaf(v.fields[i].value, f, path[1..]);
        original := [Key(v.fields[i].key)] + rest;
      } else {
        ItemIsValue(v.items[path[0].i], f);
        rest := NoNewLeaf(v.items[path[0].i], f, path[1..]);
        original := [path[0]] + rest;
      }
      RenameLonger(original[0], rest, f);
    }
  }

  // ---- composition ----

  function Compose(g: Renaming, f: Renaming): Renaming {
    key => g(f(key))
  }

  /** Renaming by `f` and then by `g` is renaming by `g` after `f`. */
  lemma {:induction false} RenamingsCompose(v: Node, f: Renaming, g: Renaming)
    requires Renamable(v, Compose(g, f))
    ensures Renamable(v, f) && Renamable(TransformValue(v, f), g)
    ensures TransformValue(TransformValue(v, f), g) == TransformValue(v, Compose(g, f))
    decreases v
  {
    match v
    case Record(fields) =>
      forall i, j | 0 <= i < j < |fields| ensures f(fields[i].key) != f(fields[j].key) {
        assert Compose(g, f)(fields[i].key) != Compose(g, f)(fields[j].key);
      }
      forall i | 0 <= i < |fields|
        ensures Renamable(fields[i].value, f) && Renamable(TransformValue(fields[i].value, f), g)
        ensures TransformValue(TransformValue(fields[i].value, f), g) == TransformValue(fields[i].value, Compose(g, f))
      {
        RenamingsCompose(fields[i].value, f, g);
      }
      FieldByField(fields, f);
      FieldByField(fields, Compose(g, f));
      var once := CaseTransform(fields, f);
      forall i, j | 0 <= i < j < |once| ensures g(once[i].key) != g(once[j].key) {
        assert Compose(g, f)(fields[i].key) != Compose(g, f)(fields[j].key);
      }
      FieldByField(once, g);
      assert CaseTransform(once, g) == CaseTransform(fields, Compose(g, f));
    case Array(items) =>
      forall i | 0 <= i < |items|
        ensures Renamable(items[i], f) && Renamable(TransformItem(items[i], f), g)
        ensures !TransformItem(items[i], f).Array? && !TransformItem(items[i], f).Instance?
        ensures TransformItem(TransformItem(items[i], f), g) == TransformItem(items[i], Compose(g, f))
      {
        RenamingsCompose(items[i], f, g);
        ItemIsValue(items[i], f);
        ItemIsValue(items[i], Compose(g, f));
        ItemIsValue(TransformItem(items[i], f), g);
      }
    case _ =>
  }

  // ---- exactly when the structure survives ----

  /** The same tree up to the names of the keys. */
  predicate SameShape(v: Node, w: Node) {
    match v
    case Record(fields) =>
      w.Record? && |w.fields| == |fields| &&
      forall i :: 0 <= i < |fields| ==> SameShape(fields[i].value, w.fields[i].value)
    case Array(items) =>
      w.Array? && |w.items| == |items| && forall i :: 0 <= i < |items| ==> SameShape(items[i], w.items[i])
    case _ => w == v
  }

  /** An inner array, a Date inside an array or two keys renamed alike are the only ways to lose it. */
  lemma {:induction false} ShapeKeptIff(v: Node, f: Renaming)
    ensures SameShape(v, TransformValue(v, f)) <==> Renamable(v, f)
    decreases v
  {
    match v
    case Record(fields) =>
      forall i | 0 <= i < |fields|
        ensures SameShape(fields[i].value, TransformValue(fields[i].value, f)) <==> Renamable(fields[i].value, f)
      {
        ShapeKeptIff(fields[i].value, f);
      }
      SizeKeptIff(fields, f);
      if KeepsApart(fields, f) {
        FieldByField(fields, f);
      }
    case Array(items) =>
      forall i | 0 <= i < |items|
        ensures SameShape(items[i], TransformItem(items[i], f)) <==>
                !items[i].Array? && !items[i].Instance? && Renamable(items[i], f)
      {
        ShapeKeptIff(items[i], f);
      }
    case _ =>
  }

  /** The record an inner array becomes: its items in order, each under its renamed index, as long as
      the renaming keeps the indices apart. */
  lemma {:induction false} IndexedFields(items: seq<Node>, f: Renaming)
    requires forall i, j :: 0 <= i < j < |items| ==> f(Decimal(i)) != f(Decimal(j))
    ensures var fields := TransformIndexed(items, f);
            && |fields| == |items|
            && forall i :: 0 <= i < |items| ==> fields[i] == Field(f(Decimal(i)), TransformValue(items[i], f))
    decreases |items|
  {
    if items != [] {
      var n := |items| - 1;
      IndexedFields(items[..n], f);
      assert forall i :: 0 <= i < n ==> items[..n][i] == items[i];
    }
  }

  /** An array inside an array comes back as a record of its indices. */
  lemma InnerArrayLost(items: seq<Node>, f: Renaming)
    ensures var v := Array([Array(items)]);
            TransformValue(v, f) == Array([Record(TransformIndexed(items, f))]) && !SameShape(v, TransformValue(v, f))
  {
    var v := Array([Array(items)]);
    assert v.items[0] == Array(items);
    assert TransformItem(v.items[0], f) == Record(TransformIndexed(items, f));
    assert TransformValue(v, f).items[0].Record?;
    assert TransformValue(v, f).items == [Record(TransformIndexed(items, f))];
  }

  /** Of two keys renamed alike one is lost, with its value. */
  lemma MergedKeyLost(a: Field, b: Field, f: Renaming)
    requires f(a.key) == f(b.key)
    ensures CaseTransform([a, b], f) == [Field(f(a.key), TransformValue(b.value, f))]
  {
    var one, two := [a], [a, b];
    assert one[..|one| - 1] == [] && two[..|two| - 1] == one;
    assert CaseTransform(one, f) == Put([], f(a.key), TransformValue(a.value, f));
    assert CaseTransform(two, f) == Put(CaseTransform(one, f), f(b.key), TransformValue(b.value, f));
    PutFirst(a, b, f);
  }

  lemma PutFirst(a: Field, b: Field, f: Renaming)
    requires f(a.key) == f(b.key)
    ensures Put(Put([], f(a.key), TransformValue(a.value, f)), f(b.key), TransformValue(b.value, f))
         == [Field(f(a.key), TransformValue(b.value, f))]
  {
    var first := Put([], f(a.key), TransformValue(a.value, f));
    assert first[0].key == f(b.key);
  }

  /** The later value takes the place of the earlier: the order of the others stays. */
  lemma MergedKeyKeepsPlace(a: Field, b: Field, c: Field, f: Renaming)
    requires f(a.key) == f(c.key) && f(a.key) != f(b.key)
    ensures CaseTransform([a, b, c], f)
         == [Field(f(a.key), TransformValue(c.value, f)), Field(f(b.key), TransformValue(b.value, f))]
  {
    var two, three := [a, b], [a, b, c];
    assert three[..|three| - 1] == two && two[0] == a && two[1] == b;
    FieldByField(two, f);
    var once := CaseTransform(two, f);
    assert once == [Field(f(a.key), TransformValue(a.value, f)), Field(f(b.key), TransformValue(b.value, f))];
    assert CaseTransform(three, f) == Put(once, f(c.key), TransformValue(c.value, f));
    assert once[0].key == f(c.key) && once[1].key != f(c.key);
  }
}
