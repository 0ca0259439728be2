/**
 * The schema walker of the documentation generator: the type label of a
 * JSON schema, and the parameter rows listed for a tool's input or output
 * schema, nested properties included.
 */
module DocSchema {
  import opened Wrappers
  import opened JsValues

  /**
   * The parts of a JSON schema the walker reads: `type`, `items`,
   * `properties` (its entries in order; None when the key is absent),
   * `required` and `description`.
   */
  datatype Schema = Schema(
    kind: Option<string>,
    items: Option<Schema>,
    properties: Option<Properties>,
    required: Option<seq<string>>,
    description: Option<string>)

  /** The entries of `properties`, in order. */
  datatype Properties = Properties(entries: seq<Property>)

  /** One entry of `properties`. */
  datatype Property = Property(name: string, schema: Schema)

  /**
   * `formatType`: "any" for a missing schema, "array of <items>" for an
   * array with items, "array" for one without, "object" for an object, and
   * otherwise the schema's type, or "any" when that is absent or empty.
   */
  function FormatType(s: Option<Schema>): (r: string)
    ensures r != ""
    decreases s
  {
    if s.None? then "any"
    else if s.value.kind == Some("array") then
      if s.value.items.Some? then "array of " + FormatType(s.value.items) else "array"
    else if s.value.kind == Some("object") then "object"
    else if Truthy(s.value.kind) then s.value.kind.value
    else "any"
  }

  /** The number of nested array layers that carry `items`. */
  function ArrayDepth(s: Option<Schema>): nat
    decreases s
  {
    if s.Some? && s.value.kind == Some("array") && s.value.items.Some? then 1 + ArrayDepth(s.value.items) else 0
  }

  /** The schema found under all those layers. */
  function ElementSchema(s: Option<Schema>): (e: Option<Schema>)
    ensures ArrayDepth(e) == 0
    decreases s
  {
    if s.Some? && s.value.kind == Some("array") && s.value.items.Some? then ElementSchema(s.value.items) else s
  }

  /** `n` times "array of ". */
  function ArraysOf(n: nat): (r: string)
    ensures |r| == 9 * n
  {
    if n == 0 then "" else "array of " + ArraysOf(n - 1)
  }

  /**
   * A type label is one "array of " per nested array layer, followed by the
   * label of the element schema under them, which is not itself an array
   * with items.
   */
  lemma {:induction false} FormatTypeUnwrapsArrays(s: Option<Schema>)
    ensures FormatType(s) == ArraysOf(ArrayDepth(s)) + FormatType(ElementSchema(s))
    decreases s
  {
    if s.Some? && s.value.kind == Some("array") && s.value.items.Some? {
      FormatTypeUnwrapsArrays(s.value.items);
    }
  }

  /** One row of a parameter table. */
  datatype Row = Row(path: string, typeLabel: string, required: string, description: string)

  /** A property's path: its name at the top level, `<parent>.<name>` below. */
  function ChildPath(parentPath: string, name: string): (p: string)
    ensures parentPath == "" ==> p == name
    ensures parentPath != "" ==> IsPrefix(parentPath + ".", p) && p[|parentPath| + 1..] == name
  {
    if parentPath == "" then name else parentPath + "." + name
  }

  /** The walker descends only into an object that has `properties`. */
  predicate Expands(s: Schema) {
    s.kind == Some("object") && s.properties.Some?
  }

  /**
   * The row of one property: its path, its type label, "Yes" exactly when
   * its name is in its level's `required` list and "No" otherwise, and its
   * description, or "-" when that is absent or empty.
   */
  function HeadRow(p: Property, required: seq<string>, parentPath: string): (r: Row)
    ensures r.path == ChildPath(parentPath, p.name)
    ensures r.typeLabel == FormatType(Some(p.schema))
    ensures r.required in {"Yes", "No"} && (r.required == "Yes" <==> p.name in required)
    ensures Truthy(p.schema.description) ==> r.description == p.schema.description.value
    ensures !Truthy(p.schema.description) ==> r.description == "-"
  {
    Row(ChildPath(parentPath, p.name), FormatType(Some(p.schema)),
        if p.name in required then "Yes" else "No",
        if Truthy(p.schema.description) then p.schema.description.value else "-")
  }

  /**
   * The rows `collectParameters` lists for a schema: none unless it is an
   * object with `properties`, otherwise the rows of its properties in
   * order, read against its own `required` list (absent is empty).
   */
  function Rows(s: Schema, parentPath: string): (r: seq<Row>)
    ensures !Expands(s) ==> r == []
    ensures Expands(s) ==> |r| >= |s.properties.value.entries|
    decreases s
  {
    if Expands(s) then PropertyRows(s.properties.value.entries, s.required.GetOr([]), parentPath) else []
  }

  function PropertyRows(ps: seq<Property>, required: seq<string>, parentPath: string): (r: seq<Row>)
    ensures |r| >= |ps|
    decreases ps
  {
    if ps == [] then [] else Block(ps[0], required, parentPath) + PropertyRows(ps[1..], required, parentPath)
  }

  /**
   * The rows of one property: its own row, then the rows of its properties
   * when it is an object with properties, then those of its items under
   * `<path>[]` when it is an array whose items are an object with properties.
   */
  function Block(p: Property, required: seq<string>, parentPath: string): (r: seq<Row>)
    ensures |r| >= 1 && r[0] == HeadRow(p, required, parentPath)
    decreases p
  {
    var path := ChildPath(parentPath, p.name);
    [HeadRow(p, required, parentPath)]
    + (if Expands(p.schema) then Rows(p.schema, path) else [])
    + (if p.schema.kind == Some("array") && p.schema.items.Some? && Expands(p.schema.items.value)
       then Rows(p.schema.items.value, path + "[]") else [])
  }

  lemma {:induction false} PropertyRowsAppend(a: seq<Property>, b: seq<Property>, required: seq<string>, parentPath: string)
    ensures PropertyRows(a + b, required, parentPath) == PropertyRows(a, required, parentPath) + PropertyRows(b, required, parentPath)
    decreases |a|
  {
    if a != [] {
      assert (a + b)[0] == a[0];
      assert (a + b)[1..] == a[1..] + b;
      PropertyRowsAppend(a[1..], b, required, parentPath);
    } else {
      assert a + b == b;
    }
  }

  /**
   * Pre-order, one block per property, in property order: the rows of the
   * properties before the i-th come first, then the i-th property's block,
   * which opens with that property's own row.
   */
  lemma PropertiesListedInOrder(s: Schema, parentPath: string, i: nat)
    requires Expands(s) && i < |s.properties.value.entries|
    ensures var ps := s.properties.value.entries;
            var required := s.required.GetOr([]);
            var before := PropertyRows(ps[..i], required, parentPath);
            var block := Block(ps[i], required, parentPath);
            var rows := Rows(s, parentPath);
            && |before| + |block| <= |rows|
            && rows[..|before|] == before
            && rows[|before|..|before| + |block|] == block
            && rows[|before|] == HeadRow(ps[i], required, parentPath)
  {
    var ps := s.properties.value.entries;
    var required := s.required.GetOr([]);
    assert ps == ps[..i] + ps[i..];
    PropertyRowsAppend(ps[..i], ps[i..], required, parentPath);
    assert ps[i..][0] == ps[i];
  }

  lemma PrefixTransitive(a: string, b: string, c: string)
    requires IsPrefix(a, b) && IsPrefix(b, c)
    ensures IsPrefix(a, c)
  {
    assert c[..|a|] == c[..|b|][..|a|];
  }

  /**
   * Below a non-empty parent path every row's path starts with
   * `<parent>.`: nested rows stay under the property they expand.
   */
  lemma {:induction false} RowsStayUnderParent(s: Schema, parentPath: string)
    requires parentPath != ""
    ensures forall k :: 0 <= k < |Rows(s, parentPath)| ==> IsPrefix(parentPath + ".", Rows(s, parentPath)[k].path)
    decreases s
  {
    if Expands(s) {
      PropertyRowsStayUnderParent(s.properties.value.entries, s.required.GetOr([]), parentPath);
    }
  }

  lemma {:induction false} PropertyRowsStayUnderParent(ps: seq<Property>, required: seq<string>, parentPath: string)
    requires parentPath != ""
    ensures forall k :: 0 <= k < |PropertyRows(ps, required, parentPath)| ==>
              IsPrefix(parentPath + ".", PropertyRows(ps, required, parentPath)[k].path)
    decreases ps
  {
    if ps != [] {
      BlockStaysUnderParent(ps[0], required, parentPath);
      PropertyRowsStayUnderParent(ps[1..], required, parentPath);
    }
  }

  lemma {:induction false} BlockStaysUnderParent(p: Property, required: seq<string>, parentPath: string)
    requires parentPath != ""
    ensures forall k :: 0 <= k < |Block(p, required, parentPath)| ==>
              IsPrefix(parentPath + ".", Block(p, required, parentPath)[k].path)
    decreases p
  {
    var top := parentPath + ".";
    var path := ChildPath(parentPath, p.name);
    assert IsPrefix(top, path);
    var nested := if Expands(p.schema) then Rows(p.schema, path) else [];
    var items := if p.schema.kind == Some("array") && p.schema.items.Some? && Expands(p.schema.items.value)
                 then Rows(p.schema.items.value, path + "[]") else [];
    assert Block(p, required, parentPath) == [HeadRow(p, required, parentPath)] + nested + items;
    if Expands(p.schema) {
      RowsStayUnderParent(p.schema, path);
      assert IsPrefix(top, path + ".");
      forall k | 0 <= k < |nested| ensures IsPrefix(top, nested[k].path) {
        PrefixTransitive(top, path + ".", nested[k].path);
      }
    }
    if p.schema.kind == Some("array") && p.schema.items.Some? && Expands(p.schema.items.value) {
      RowsStayUnderParent(p.schema.items.value, path + "[]");
      assert IsPrefix(top, path + "[]" + ".");
      forall k | 0 <= k < |items| ensures IsPrefix(top, items[k].path) {
        PrefixTransitive(top, path + "[]" + ".", items[k].path);
      }
    }
  }

  /**
   * `collectParameters(schema, parentPath)`: the rows of each property in
   * order, pushed one property after the other.
   */
  method CollectParameters(schema: Schema, parentPath: string) returns (rows: seq<Row>)
    ensures rows == Rows(schema, parentPath)
    decreases schema
  {
    rows := [];
    if schema.kind == Some("object") && schema.properties.Some? {
      var required := schema.required.GetOr([]);
      var ps := schema.properties.value.entries;
      var i := 0;
      while i < |ps|
        invariant 0 <= i <= |ps|
        invariant rows == PropertyRows(ps[..i], required, parentPath)
      {
        var block := CollectProperty(ps[i], required, parentPath);
        PropertyRowsAppend(ps[..i], [ps[i]], required, parentPath);
        assert ps[..i + 1] == ps[..i] + [ps[i]];
        rows := rows + block;
        i := i + 1;
      }
      assert ps[..|ps|] == ps;
    }
  }

  /**
   * One turn of that loop: the property's own row, then the rows of its
   * properties, or of its items' properties under `<path>[]`, collected by
   * the recursive call.
   */
  method CollectProperty(p: Property, required: seq<string>, parentPath: string) returns (block: seq<Row>)
    ensures block == Block(p, required, parentPath)
    decreases p
  {
    var prop := p.schema;
    var path := ChildPath(parentPath, p.name);
    block := [HeadRow(p, required, parentPath)];
    if prop.kind == Some("object") && prop.properties.Some? {
      var nested := CollectParameters(prop, path);
      block := block + nested;
    }
    if prop.kind == Some("array") && prop.items.Some? {
      if prop.items.value.kind == Some("object") && prop.items.value.properties.Some? {
        var nested := CollectParameters(prop.items.value, path + "[]");
        block := block + nested;
      }
    }
  }
}
