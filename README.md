# Validation errors (`val`), modelled in Dafny

The Go package `val` collects field-level validation failures into one
error value. An `Errors` value is an ordered list of `Field`s, each a
(name, description) pair. The nil `*Errors` pointer means "no error".
Constructors never return a collection with no fields: they return nil
instead. `Concat` flattens collections. `NewChildren` nests collections
under a parent name, giving `parent.child` names. `Addf` appends one field.
`Error()` renders the message. Every collection unwraps to the shared
base error `Err`.

The model is one Dafny module, `Validation` (validation.dfy), plus the
`Option` type in `Wrappers` (wrappers.dfy).

- `Field` and `Errors` are datatypes. A `*Errors` handle is
  `ErrorsRef = Option<Errors>`, with `None` for nil. A present handle
  with no fields (`&Errors{}` in Go) can be expressed. `Collapsed` is the
  invariant that every constructor keeps.
- The pure operations (`Any`, `Unwrap`) are functions.
- The operations that loop and append (`Concat`, `NewChildren`, `Error`)
  are methods with loops. Each is proved equal to a specification
  function of its inputs: `Collapse` of `Flatten`, `Collapse` of
  `Children` (equal to `PrefixAll` of `Flatten`), and `Render` (built from
  `Rendered` and `Join`).
- `FromFields` and `GetFields` copy into a newly allocated array with a
  loop. `FromFields` is proved equal to `Collapse` of its input.
  `GetFields` is proved to return null exactly when there are no fields,
  and otherwise a fresh array whose contents equal the stored fields.
- `New` and `Addf` are methods because they call `FromFields` and `Concat`.
  Their contracts give the resulting collection in closed form.
- The format string and arguments of `New`/`Addf` are replaced by the
  already formatted description.

Points where the code does less than one might expect, modelled as the
code behaves:

- `GetFields` has a value receiver (`func (e Errors)`), so calling it
  through a nil `*Errors` dereferences nil and faults. It does not return
  an empty list for nil. It is modelled on `Errors`, not on the nil handle.
- `NewChildren` omits only an empty child name. An empty parent name keeps
  the separator: a child named `x` gets the name `".x"` (lemma
  `EmptyParentKeepsSeparator`).
- `Concat` reads the fields of every argument without a nil check. A nil
  argument therefore faults. So does `Addf` on a nil receiver, which
  passes the receiver to `Concat`. See "## Findings".

## Model

| member | source | states |
|---|---|---|
| Validation.Unwrap | validation.go:28-30 | every handle, nil included, unwraps to the one shared base error whose message is "validation error" |
| Validation.Any | validation.go:32-34 | true exactly when the handle is non-nil and has at least one field; false on nil, not a fault |
| Validation.AnyMeansPresent | validation.go:32-34 | on any handle a constructor returns, `Any` is exactly "not nil" |
| Validation.FromFields | validation.go:102-109 | nil exactly when given no fields; otherwise a present collection whose fields equal the input, in order |
| Validation.CollapseRoundTrip | validation.go:102-109 | the fields of what FromFields builds are its input, and it reports a failure exactly when given fields |
| Validation.New | validation.go:61-63 | a present collection holding exactly the one given field |
| Validation.Concat | validation.go:94-100 | for non-nil arguments: the fields of all arguments in argument order; nil exactly when every argument has no fields (so `Concat()` is nil) |
| Validation.ConcatSkippingNil | validation.go:93-100 | corrected Concat: nil arguments contribute no fields; the same flattening; nil exactly when no argument contributes a field |
| Validation.FlattenAppend | validation.go:96-98 | concatenating argument lists concatenates their flattened fields |
| Validation.FlattenEmptyIff | validation.go:96-99 | the flattened fields are empty exactly when every argument contributes none (both directions) |
| Validation.ConcatTwo | validation_test.go:47-63 | Concat of two collections yields the first's fields, then the second's |
| Validation.ConcatNothingIsNil | validation_test.go:31-37 | `Concat()` is nil |
| Validation.ConcatOfNilOutsideCode | validation_test.go:39-45 | the test's call `Concat(nil)` is outside what the code accepts; with nil skipped the result would be nil |
| Validation.Addf | validation.go:65-67 | for a non-nil collection: a present collection with the old fields as a prefix, followed by exactly the one new field |
| Validation.AddfSkippingNil | validation.go:65-67 | corrected Addf: a nil receiver contributes no fields; the result is present and holds the receiver's fields followed by exactly the one new field, so on nil it is the one-field collection `New` builds |
| Validation.NewChildren | validation.go:77-91 | the fields of all non-empty arguments, each placed under `parent`, in order; equal to placing the flattened fields under `parent`; nil exactly when there are no fields |
| Validation.ChildrenArePrefixedFlatten | validation.go:78-90 | what the NewChildren loop collects equals Concat with nil skipped, followed by placing every field under `parent` |
| Validation.PrefixAllAppend | validation.go:81-87 | placing fields under a parent distributes over concatenation |
| Validation.PrefixAllLength | validation.go:81-87 | placing fields under a parent yields exactly one field per input field |
| Validation.PrefixAllAt | validation.go:81-87 | output field k is input field k placed under the parent |
| Validation.NewChildrenFieldAt | validation.go:82-86 | one output field per input field: the description is unchanged; the name is `parent` for an unnamed child and `parent.name` otherwise |
| Validation.NestedPrefix | validation.go:69-76 | placing a field under a named `inner`, then under `outer`, is placing it under `outer.inner` |
| Validation.NestedPrefixAll | validation.go:69-76 | the same for a list of fields: ancestor names are joined outermost first |
| Validation.NestedChildren | validation.go:69-76 | `NewChildren(outer, NewChildren(inner, xs...))` equals `NewChildren("outer.inner", xs...)` for a non-empty `inner` |
| Validation.EmptyParentKeepsSeparator | validation.go:85 | an empty parent name is not omitted: a named child gets a leading `.` |
| Validation.GetFields | validation.go:36-43 | nil exactly when there are no fields; otherwise a fresh array whose contents equal the stored fields |
| Validation.Error | validation.go:45-58 | the message is `Render`: a fixed placeholder for nil, otherwise the singular or plural prefix followed by the fields' texts joined with `, ` |
| Validation.RenderedAppend | validation.go:51-53 | rendering the fields of a concatenation concatenates the renderings |
| Validation.RenderedLength | validation.go:50-53 | one rendered text per field |
| Validation.JoinAppend | validation.go:55-57 | joining two non-empty lists puts exactly one separator between their joins |
| Validation.RenderOne | validation.go:54-55 | a single field renders as `validation error: '<name>' <description>` |
| Validation.RenderConcat | validation.go:57 | two non-empty field lists concatenated render as the plural prefix, the first body, `, `, the second body |
| Validation.RenderConcatOfTwo | validation.go:57 | two single-field collections concatenated render both fields behind the plural prefix |
| Validation.RenderEmptyPresent | validation.go:54-57 | a present collection with no fields renders as the bare plural prefix `validation errors: ` |
| Validation.NewRendersExample | validation_test.go:27 | `New("name1","desc1")` renders as `validation error: 'name1' desc1` |
| Validation.ConcatRendersExample | validation_test.go:56 | Concat of the two example fields renders as `validation errors: 'name1' desc1, 'name2' desc2` |
| Validation.RenderOneChild | validation.go:77-91 | one single-field child under `parent` renders with the singular prefix and that field placed under `parent` |
| Validation.RenderNamedChild | validation.go:85 | a named child renders as `validation error: '<parent>.<name>' <description>` |
| Validation.RenderUnnamedChild | validation.go:83 | an unnamed child renders as `validation error: '<parent>' <description>` |
| Validation.NamedChildRendersExample | validation_test.go:94 | `NewChildren("parent", New("child1","y"))` renders as `validation error: 'parent.child1' y` |
| Validation.UnnamedChildRendersExample | validation_test.go:101 | `NewChildren("parent", New("","x"))` renders as `validation error: 'parent' x` |

## Findings

| source | as written | input that shows it | evidently intended | confidence | as-written member | corrected member |
|---|---|---|---|---|---|---|
| validation.go:97 | `Concat` appends `x.fields` for every argument with no nil check, so a nil argument dereferences nil | `Concat(nil)`, as in validation_test.go:39-45 | nil arguments contribute no fields and `Concat(nil)` is nil, as the comment at validation.go:93 and the test say | not executed; high | Validation.Concat (with Validation.ConcatOfNilOutsideCode) | Validation.ConcatSkippingNil |
| validation.go:66 | `Addf` passes its receiver to `Concat`, which reads the receiver's fields with no nil check, so a nil receiver dereferences nil | `var errs *Errors; errs = errs.Addf("name", "desc")` | a nil receiver contributes no fields, so the result equals `New("name", "desc")` | not executed; high | Validation.Addf | Validation.AddfSkippingNil |

## Left out

- `New`, `Addf`: `fmt.Sprintf(format, args...)` is not modelled. The description is a parameter holding the already formatted text, so malformed format strings are not represented.
- `Unwrap`: Go's `errors.Is`/`errors.As` chain walking is not modelled. `Unwrap` returns the constant base error `Err`.
- The JSON tags on `Field` are not modelled. Serialisation happens outside this package.
- Go's nil-dereference panic is not modelled as control flow. It is the precondition of `Concat` (non-nil arguments) and `Addf` (non-nil receiver). `GetFields` takes a value, not a handle.
- Aliasing of slice backing arrays is not modelled. Collections are immutable sequence values, so "inputs unchanged" and "independent copy" hold by construction. The copies in `FromFields` and `GetFields` are still written as loops over freshly allocated arrays.
- The goconvey test harness is not modelled. Its assertions appear only as the example lemmas above.
