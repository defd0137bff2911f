/**
 * A composite validation error: an ordered list of (name, description)
 * pairs, one per failed field, where the nil handle means "no error".
 *
 * `Errors` is an immutable value; a `*Errors` handle is an `ErrorsRef`,
 * with `None` for nil. Every constructor returns nil instead of a
 * collection with no fields (the `Collapsed` invariant).
 */
module Validation {
  import opened Wrappers

  /** One failed field. An empty name means "the parent itself". */
  datatype Field = Field(name: string, description: string)

  /** The collection, fields in insertion order. */
  datatype Errors = Errors(fields: seq<Field>)

  /** A `*Errors` handle: `None` is nil, i.e. no error. */
  type ErrorsRef = Option<Errors>

  /** A plain error value created from a message. */
  datatype BaseError = BaseError(message: string)

  /** Separator between a parent name and a child name. */
  const FieldSep: string := "."

  /** Separator between rendered fields. */
  const PrintSep: string := ", "

  /** The shared base error that every collection unwraps to. */
  const Err: BaseError := BaseError("validation error")

  /** The zero value of a field, which a fresh array is filled with. */
  const ZeroField: Field := Field("", "")

  // ---------------------------------------------------------------------
  // Specification functions
  // ---------------------------------------------------------------------

  /** The fields a handle contributes: none for nil. */
  function FieldsOf(e: ErrorsRef): seq<Field>
  {
    if e.Some? then e.value.fields else []
  }

  /** The invariant the constructors keep: a present collection is never empty. */
  predicate Collapsed(e: ErrorsRef)
  {
    e.Some? ==> |e.value.fields| > 0
  }

  /** The handle built from a list of fields: nil exactly when there are none. */
  function Collapse(xs: seq<Field>): ErrorsRef
  {
    if |xs| == 0 then None else Some(Errors(xs))
  }

  /** True when no handle in `xs` is nil. */
  predicate AllPresent(xs: seq<ErrorsRef>)
  {
    forall i :: 0 <= i < |xs| ==> xs[i].Some?
  }

  /** The fields of all handles, in argument order. */
  function Flatten(xs: seq<ErrorsRef>): seq<Field>
  {
    if |xs| == 0 then [] else Flatten(xs[..|xs| - 1]) + FieldsOf(xs[|xs| - 1])
  }

  /** A child field placed under `parent`. */
  function Prefix(parent: string, f: Field): Field
  {
    if f.name == "" then Field(parent, f.description)
    else Field(parent + FieldSep + f.name, f.description)
  }

  /** Every field of `fs` placed under `parent`. */
  function PrefixAll(parent: string, fs: seq<Field>): seq<Field>
  {
    if |fs| == 0 then [] else PrefixAll(parent, fs[..|fs| - 1]) + [Prefix(parent, fs[|fs| - 1])]
  }

  /** The fields NewChildren collects, handle by handle, skipping those without fields. */
  function Children(parent: string, xs: seq<ErrorsRef>): seq<Field>
  {
    if |xs| == 0 then []
    else
      var x := xs[|xs| - 1];
      Children(parent, xs[..|xs| - 1]) + (if Any(x) then PrefixAll(parent, x.value.fields) else [])
  }

  /** The text of one field: its name in single quotes, a space, its description. */
  function FieldText(f: Field): string
  {
    "'" + f.name + "' " + f.description
  }

  /** The text of every field, in order. */
  function Rendered(fs: seq<Field>): seq<string>
  {
    if |fs| == 0 then [] else Rendered(fs[..|fs| - 1]) + [FieldText(fs[|fs| - 1])]
  }

  /** The parts separated by `sep`, as strings.Join does. */
  function Join(parts: seq<string>, sep: string): string
  {
    if |parts| == 0 then ""
    else if |parts| == 1 then parts[0]
    else Join(parts[..|parts| - 1], sep) + sep + parts[|parts| - 1]
  }

  /** The message of a handle. */
  function Render(e: ErrorsRef): string
  {
    match e
    case None => "<nil> validation error"
    case Some(x) =>
      (if |x.fields| == 1 then "validation error: " else "validation errors: ")
      + Join(Rendered(x.fields), PrintSep)
  }

  // ---------------------------------------------------------------------
  // Operations
  // ---------------------------------------------------------------------

  /** Every handle, nil included, unwraps to the shared base error. */
  function Unwrap(e: ErrorsRef): (base: BaseError)
    ensures base == Err && base.message == "validation error"
  {
    Err
  }

  /** Whether a handle reports any failure; false on nil rather than a fault. */
  function Any(e: ErrorsRef): (b: bool)
    ensures b <==> FieldsOf(e) != []
    ensures b ==> e.Some?
  {
    e.Some? && |e.value.fields| > 0
  }

  /** Copies the fields into a fresh array; no fields give nil. */
  method FromFields(xs: seq<Field>) returns (r: ErrorsRef)
    ensures r.None? <==> |xs| == 0
    ensures r.Some? ==> r.value.fields == xs
    ensures Collapsed(r) && r == Collapse(xs)
  {
    if |xs| == 0 {
      return None;
    }
    var fields := new Field[|xs|](_ => ZeroField);
    var i := 0;
    while i < |xs|
      invariant 0 <= i <= |xs|
      invariant fields[..i] == xs[..i]
    {
      fields[i] := xs[i];
      i := i + 1;
    }
    r := Some(Errors(fields[..]));
  }

  /** A collection of one field; `description` is the already formatted text. */
  method New(name: string, description: string) returns (r: ErrorsRef)
    ensures r == Some(Errors([Field(name, description)]))
  {
    r := FromFields([Field(name, description)]);
  }

  /**
   * The fields of all arguments in argument order, nil when there are none.
   * Every argument must be non-nil: the fields of each are read unguarded.
   */
  method Concat(xs: seq<ErrorsRef>) returns (r: ErrorsRef)
    requires AllPresent(xs)
    ensures Collapsed(r) && r == Collapse(Flatten(xs))
    ensures r.None? <==> forall i :: 0 <= i < |xs| ==> xs[i].value.fields == []
  {
    var fields: seq<Field> := [];
    var i := 0;
    while i < |xs|
      invariant 0 <= i <= |xs|
      invariant fields == Flatten(xs[..i])
    {
      assert xs[..i + 1][..i] == xs[..i];
      fields := fields + xs[i].value.fields;
      i := i + 1;
    }
    assert xs[..|xs|] == xs;
    FlattenEmptyIff(xs);
    r := FromFields(fields);
  }

  /** Concat with nil arguments contributing no fields instead of faulting. */
  method ConcatSkippingNil(xs: seq<ErrorsRef>) returns (r: ErrorsRef)
    ensures Collapsed(r) && r == Collapse(Flatten(xs))
    ensures r.None? <==> forall i :: 0 <= i < |xs| ==> FieldsOf(xs[i]) == []
  {
    var fields: seq<Field> := [];
    var i := 0;
    while i < |xs|
      invariant 0 <= i <= |xs|
      invariant fields == Flatten(xs[..i])
    {
      assert xs[..i + 1][..i] == xs[..i];
      if xs[i].Some? {
        fields := fields + xs[i].value.fields;
      }
      i := i + 1;
    }
    assert xs[..|xs|] == xs;
    FlattenEmptyIff(xs);
    r := FromFields(fields);
  }

  /** A new collection: the fields of `e` followed by one more field. */
  method Addf(e: ErrorsRef, field: string, description: string) returns (r: ErrorsRef)
    requires e.Some?
    ensures r == Some(Errors(e.value.fields + [Field(field, description)]))
  {
    var n := New(field, description);
    ConcatTwo(e.value, n.value);
    r := Concat([e, n]);
  }

  /** Addf with a nil receiver contributing no fields instead of faulting. */
  method AddfSkippingNil(e: ErrorsRef, field: string, description: string) returns (r: ErrorsRef)
    ensures r == Some(Errors(FieldsOf(e) + [Field(field, description)]))
    ensures e.None? ==> r == Some(Errors([Field(field, description)]))
  {
    var n := New(field, description);
    assert Flatten([e, n]) == FieldsOf(e) + [Field(field, description)] by {
      assert [e, n][..1] == [e];
      assert [e][..0] == [];
      assert Flatten([e]) == FieldsOf(e);
    }
    r := ConcatSkippingNil([e, n]);
    assert e.None? ==> FieldsOf(e) + [Field(field, description)] == [Field(field, description)];
  }

  /** The fields of all non-empty arguments, each placed under `parent`. */
  method NewChildren(parent: string, xs: seq<ErrorsRef>) returns (r: ErrorsRef)
    ensures Collapsed(r) && r == Collapse(Children(parent, xs))
    ensures r == Collapse(PrefixAll(parent, Flatten(xs)))
    ensures r.None? <==> Flatten(xs) == []
  {
    var fields: seq<Field> := [];
    var i := 0;
    while i < |xs|
      invariant 0 <= i <= |xs|
      invariant fields == Children(parent, xs[..i])
    {
      assert xs[..i + 1][..i] == xs[..i];
      var x := xs[i];
      if Any(x) {
        var fs := x.value.fields;
        ghost var before := fields;
        var j := 0;
        while j < |fs|
          invariant 0 <= j <= |fs|
          invariant fields == before + PrefixAll(parent, fs[..j])
        {
          assert fs[..j + 1][..j] == fs[..j];
          var f := fs[j];
          if f.name == "" {
            fields := fields + [Field(parent, f.description)];
          } else {
            fields := fields + [Field(parent + FieldSep + f.name, f.description)];
          }
          j := j + 1;
        }
        assert fs[..|fs|] == fs;
      }
      i := i + 1;
    }
    assert xs[..|xs|] == xs;
    ChildrenArePrefixedFlatten(parent, xs);
    PrefixAllLength(parent, Flatten(xs));
    r := FromFields(fields);
  }

  /** A fresh copy of the fields, or nil when there are none. */
  method GetFields(e: Errors) returns (fs: array?<Field>)
    ensures fs == null <==> |e.fields| == 0
    ensures fs != null ==> fresh(fs) && fs[..] == e.fields
  {
    if !Any(Some(e)) {
      return null;
    }
    fs := new Field[|e.fields|](_ => ZeroField);
    var i := 0;
    while i < |e.fields|
      invariant 0 <= i <= |e.fields|
      invariant fs[..i] == e.fields[..i]
    {
      fs[i] := e.fields[i];
      i := i + 1;
    }
  }

  /** The message: a placeholder for nil, otherwise a prefix and the fields. */
  method Error(e: ErrorsRef) returns (s: string)
    ensures s == Render(e)
    ensures e.None? ==> s == "<nil> validation error"
  {
    if e.None? {
      return "<nil> validation error";
    }
    var fields := e.value.fields;
    var sb: seq<string> := [];
    var i := 0;
    while i < |fields|
      invariant 0 <= i <= |fields|
      invariant sb == Rendered(fields[..i])
    {
      assert fields[..i + 1][..i] == fields[..i];
      sb := sb + ["'" + fields[i].name + "' " + fields[i].description];
      i := i + 1;
    }
    assert fields[..|fields|] == fields;
    if |fields| == 1 {
      s := "validation error: " + Join(sb, PrintSep);
    } else {
      s := "validation errors: " + Join(sb, PrintSep);
    }
  }

  // ---------------------------------------------------------------------
  // Properties
  // ---------------------------------------------------------------------

  /** FromFields round-trips its input and reports a failure exactly when given fields. */
  lemma CollapseRoundTrip(xs: seq<Field>)
    ensures FieldsOf(Collapse(xs)) == xs
    ensures Any(Collapse(xs)) <==> |xs| > 0
    ensures Collapse(xs).None? <==> |xs| == 0
  {
  }

  /** On every handle a constructor returns, Any is exactly "not nil". */
  lemma AnyMeansPresent(e: ErrorsRef)
    requires Collapsed(e)
    ensures Any(e) <==> e.Some?
  {
  }

  /** Flattening distributes over concatenation of the argument lists. */
  lemma {:induction false} FlattenAppend(a: seq<ErrorsRef>, b: seq<ErrorsRef>)
    ensures Flatten(a + b) == Flatten(a) + Flatten(b)
    decreases |b|
  {
    if |b| == 0 {
      assert a + b == a;
    } else {
      assert (a + b)[..|a + b| - 1] == a + b[..|b| - 1];
      FlattenAppend(a, b[..|b| - 1]);
    }
  }

  /** The flattened fields are empty exactly when every argument contributes none. */
  lemma {:induction false} FlattenEmptyIff(xs: seq<ErrorsRef>)
    ensures Flatten(xs) == [] <==> forall i :: 0 <= i < |xs| ==> FieldsOf(xs[i]) == []
  {
    if |xs| > 0 {
      var init := xs[..|xs| - 1];
      FlattenEmptyIff(init);
      if Flatten(xs) == [] {
        forall i | 0 <= i < |xs| ensures FieldsOf(xs[i]) == [] {
          if i < |xs| - 1 {
            assert xs[i] == init[i];
          }
        }
      } else if FieldsOf(xs[|xs| - 1]) == [] {
        var i :| 0 <= i < |init| && FieldsOf(init[i]) != [];
        assert xs[i] == init[i];
      }
    }
  }

  /** Concat of two collections keeps the first's fields, then the second's. */
  lemma ConcatTwo(a: Errors, b: Errors)
    ensures Flatten([Some(a), Some(b)]) == a.fields + b.fields
  {
    assert [Some(a), Some(b)] == [Some(a)] + [Some(b)];
    FlattenAppend([Some(a)], [Some(b)]);
    assert [Some(a)][..0] == [];
    assert [Some(b)][..0] == [];
  }

  /** Placing fields under a parent distributes over concatenation. */
  lemma {:induction false} PrefixAllAppend(parent: string, a: seq<Field>, b: seq<Field>)
    ensures PrefixAll(parent, a + b) == PrefixAll(parent, a) + PrefixAll(parent, b)
    decreases |b|
  {
    if |b| == 0 {
      assert a + b == a;
    } else {
      assert (a + b)[..|a + b| - 1] == a + b[..|b| - 1];
      PrefixAllAppend(parent, a, b[..|b| - 1]);
    }
  }

  /** Placing fields under a parent keeps their number. */
  lemma {:induction false} PrefixAllLength(parent: string, fs: seq<Field>)
    ensures |PrefixAll(parent, fs)| == |fs|
  {
    if |fs| > 0 {
      PrefixAllLength(parent, fs[..|fs| - 1]);
    }
  }

  /** Field k of the placed fields is field k of the input, placed under `parent`. */
  lemma {:induction false} PrefixAllAt(parent: string, fs: seq<Field>, k: nat)
    requires k < |fs|
    ensures |PrefixAll(parent, fs)| == |fs|
    ensures PrefixAll(parent, fs)[k] == Prefix(parent, fs[k])
  {
    PrefixAllLength(parent, fs);
    if k < |fs| - 1 {
      PrefixAllAt(parent, fs[..|fs| - 1], k);
    }
  }

  /** NewChildren is Concat (with nil skipped) followed by placing every field under `parent`. */
  lemma {:induction false} ChildrenArePrefixedFlatten(parent: string, xs: seq<ErrorsRef>)
    ensures Children(parent, xs) == PrefixAll(parent, Flatten(xs))
  {
    if |xs| > 0 {
      var init, x := xs[..|xs| - 1], xs[|xs| - 1];
      ChildrenArePrefixedFlatten(parent, init);
      PrefixAllAppend(parent, Flatten(init), FieldsOf(x));
    }
  }

  /**
   * One output field per input field, in order: the description is kept and
   * the name is `parent` for an unnamed child, `parent.name` otherwise.
   */
  lemma NewChildrenFieldAt(parent: string, xs: seq<ErrorsRef>, k: nat)
    requires k < |Flatten(xs)|
    ensures |Children(parent, xs)| == |Flatten(xs)|
    ensures Children(parent, xs)[k].description == Flatten(xs)[k].description
    ensures Flatten(xs)[k].name == "" ==> Children(parent, xs)[k].name == parent
    ensures Flatten(xs)[k].name != "" ==>
              Children(parent, xs)[k].name == parent + "." + Flatten(xs)[k].name
  {
    ChildrenArePrefixedFlatten(parent, xs);
    PrefixAllAt(parent, Flatten(xs), k);
  }

  /** Placing a field under `inner`, then under `outer`, joins the ancestor chain with dots. */
  lemma NestedPrefix(outer: string, inner: string, f: Field)
    requires inner != ""
    ensures Prefix(outer, Prefix(inner, f)) == Prefix(outer + "." + inner, f)
  {
    if f.name != "" {
      assert outer + FieldSep + (inner + FieldSep + f.name)
          == (outer + FieldSep + inner) + FieldSep + f.name;
    }
  }

  /** Nesting NewChildren under a named child is one NewChildren with the joined name. */
  lemma {:induction false} NestedPrefixAll(outer: string, inner: string, fs: seq<Field>)
    requires inner != ""
    ensures PrefixAll(outer, PrefixAll(inner, fs)) == PrefixAll(outer + "." + inner, fs)
  {
    if |fs| > 0 {
      var init, f := fs[..|fs| - 1], fs[|fs| - 1];
      NestedPrefixAll(outer, inner, init);
      PrefixAllAppend(outer, PrefixAll(inner, init), [Prefix(inner, f)]);
      NestedPrefix(outer, inner, f);
      assert [Prefix(inner, f)][..0] == [];
    }
  }

  /** `NewChildren(outer, NewChildren(inner, xs...))` names every field `outer.inner...`. */
  lemma NestedChildren(outer: string, inner: string, xs: seq<ErrorsRef>)
    requires inner != ""
    ensures Children(outer, [Collapse(Children(inner, xs))]) == Children(outer + "." + inner, xs)
  {
    var one := [Collapse(Children(inner, xs))];
    ChildrenArePrefixedFlatten(outer, one);
    ChildrenArePrefixedFlatten(inner, xs);
    ChildrenArePrefixedFlatten(outer + "." + inner, xs);
    assert one[..0] == [];
    assert Flatten(one) == Children(inner, xs);
    NestedPrefixAll(outer, inner, Flatten(xs));
  }

  /** An empty parent name is not omitted: the child name gets a leading dot. */
  lemma EmptyParentKeepsSeparator(f: Field)
    requires f.name != ""
    ensures Prefix("", f).name == "." + f.name
  {
  }

  /** Rendering distributes over concatenation of the field lists. */
  lemma {:induction false} RenderedAppend(a: seq<Field>, b: seq<Field>)
    ensures Rendered(a + b) == Rendered(a) + Rendered(b)
    decreases |b|
  {
    if |b| == 0 {
      assert a + b == a;
    } else {
      assert (a + b)[..|a + b| - 1] == a + b[..|b| - 1];
      RenderedAppend(a, b[..|b| - 1]);
    }
  }

  /** Rendering yields one text per field. */
  lemma {:induction false} RenderedLength(fs: seq<Field>)
    ensures |Rendered(fs)| == |fs|
  {
    if |fs| > 0 {
      RenderedLength(fs[..|fs| - 1]);
    }
  }

  /** Joining two non-empty lists puts one separator between their joins. */
  lemma {:induction false} JoinAppend(a: seq<string>, b: seq<string>, sep: string)
    requires |a| > 0 && |b| > 0
    ensures Join(a + b, sep) == Join(a, sep) + sep + Join(b, sep)
    decreases |b|
  {
    var ab := a + b;
    assert ab[..|ab| - 1] == a + b[..|b| - 1];
    if |b| > 1 {
      JoinAppend(a, b[..|b| - 1], sep);
    } else {
      assert b[..|b| - 1] + [] == [];
      assert a + b[..|b| - 1] == a;
    }
  }

  /** A single field renders as `validation error: 'name' description`. */
  lemma RenderOne(f: Field)
    ensures Render(Some(Errors([f]))) == "validation error: '" + f.name + "' " + f.description
  {
    assert [f][..0] == [];
    assert Rendered([f]) == [FieldText(f)];
    assert Join([FieldText(f)], PrintSep) == FieldText(f);
    assert "validation error: '" + f.name + "' " + f.description
        == "validation error: " + ("'" + f.name + "' " + f.description);
  }

  /**
   * Two non-empty collections concatenated render with the plural prefix and
   * the two bodies separated by `, `.
   */
  lemma RenderConcat(a: seq<Field>, b: seq<Field>)
    requires |a| > 0 && |b| > 0
    ensures Render(Collapse(a + b))
         == "validation errors: " + Join(Rendered(a), ", ") + ", " + Join(Rendered(b), ", ")
  {
    RenderedAppend(a, b);
    RenderedLength(a);
    RenderedLength(b);
    JoinAppend(Rendered(a), Rendered(b), PrintSep);
  }

  /** A present collection with no fields (only `&Errors{}` builds one) renders as the bare plural prefix. */
  lemma RenderEmptyPresent()
    ensures Render(Some(Errors([]))) == "validation errors: "
  {
  }

  /** `New("name1", "desc1").Error()` is `validation error: 'name1' desc1`. */
  lemma NewRendersExample()
    ensures Render(Collapse([Field("name1", "desc1")])) == "validation error: 'name1' desc1"
  {
    RenderOne(Field("name1", "desc1"));
  }

  /** Two single-field collections concatenated render both fields behind the plural prefix. */
  lemma RenderConcatOfTwo(f1: Field, f2: Field)
    ensures Render(Collapse(Flatten([Collapse([f1]), Collapse([f2])])))
         == "validation errors: " + FieldText(f1) + ", " + FieldText(f2)
  {
    ConcatTwo(Errors([f1]), Errors([f2]));
    assert [f1] + [f2] == [f1, f2];
    RenderConcat([f1], [f2]);
    assert [f1][..0] == [] && [f2][..0] == [];
    assert Rendered([f1]) == [FieldText(f1)] && Rendered([f2]) == [FieldText(f2)];
  }

  /** `Concat(New("name1", "desc1"), New("name2", "desc2")).Error()` mentions both fields. */
  lemma ConcatRendersExample()
    ensures Render(Collapse(Flatten([Collapse([Field("name1", "desc1")]), Collapse([Field("name2", "desc2")])])))
         == "validation errors: 'name1' desc1, 'name2' desc2"
  {
    var f1, f2 := Field("name1", "desc1"), Field("name2", "desc2");
    RenderConcatOfTwo(f1, f2);
    assert FieldText(f1) == "'name1' desc1";
    assert FieldText(f2) == "'name2' desc2";
    assert "validation errors: " + "'name1' desc1" + ", " + "'name2' desc2"
        == "validation errors: 'name1' desc1, 'name2' desc2";
  }

  /** One child collection of one field, placed under `parent`, renders that field under its new name. */
  lemma RenderOneChild(parent: string, f: Field)
    ensures Render(Collapse(Children(parent, [Collapse([f])])))
         == "validation error: " + FieldText(Prefix(parent, f))
  {
    var xs := [Collapse([f])];
    assert xs[..0] == [];
    assert [f][..0] == [];
    assert Any(xs[0]) && xs[0].value.fields == [f];
    assert PrefixAll(parent, [f]) == [Prefix(parent, f)];
    assert Children(parent, xs) == [Prefix(parent, f)];
    assert Rendered([Prefix(parent, f)]) == [FieldText(Prefix(parent, f))] by {
      assert [Prefix(parent, f)][..0] == [];
    }
  }

  /** A named child under `parent` renders as `validation error: 'parent.name' description`. */
  lemma RenderNamedChild(parent: string, name: string, description: string)
    requires name != ""
    ensures Render(Collapse(Children(parent, [Collapse([Field(name, description)])])))
         == "validation error: '" + parent + "." + name + "' " + description
  {
    var f := Field(name, description);
    RenderOneChild(parent, f);
    assert "validation error: " + FieldText(Prefix(parent, f))
        == "validation error: '" + parent + "." + name + "' " + description;
  }

  /** An unnamed child under `parent` renders as `validation error: 'parent' description`. */
  lemma RenderUnnamedChild(parent: string, description: string)
    ensures Render(Collapse(Children(parent, [Collapse([Field("", description)])])))
         == "validation error: '" + parent + "' " + description
  {
    var f := Field("", description);
    RenderOneChild(parent, f);
    assert "validation error: " + FieldText(Prefix(parent, f))
        == "validation error: '" + parent + "' " + description;
  }

  /** `NewChildren("parent", New("child1", "y")).Error()` is `validation error: 'parent.child1' y`. */
  lemma NamedChildRendersExample()
    ensures Render(Collapse(Children("parent", [Collapse([Field("child1", "y")])])))
         == "validation error: 'parent.child1' y"
  {
    RenderNamedChild("parent", "child1", "y");
  }

  /** `NewChildren("parent", New("", "x")).Error()` is `validation error: 'parent' x`. */
  lemma UnnamedChildRendersExample()
    ensures Render(Collapse(Children("parent", [Collapse([Field("", "x")])])))
         == "validation error: 'parent' x"
  {
    RenderUnnamedChild("parent", "x");
  }

  /** `Concat()` is nil. */
  lemma ConcatNothingIsNil()
    ensures Collapse(Flatten([])) == None
  {
  }

  /**
   * The call `Concat(nil)` does not meet Concat's requirement: the code reads
   * the fields of the nil argument. With nil skipped the result is nil.
   */
  lemma ConcatOfNilOutsideCode()
    ensures !AllPresent([None])
    ensures Collapse(Flatten([None])) == None
  {
    var nil: seq<ErrorsRef> := [None];
    assert nil[..0] == [];
    assert !nil[0].Some?;
  }
}
