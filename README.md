# Litho matcher builders and the ComponentTree layout controller, in Dafny

This project models two parts of Litho.

- **`MatcherGenerator`** (`matcher_generator.dfy`). For each prop of a test component, the annotation processor generates a nullable Hamcrest matcher field and builder methods that fill it. The model gives the name rule for the matcher field, and which overloads each resource type gets: regular, `Res`, varargs `Res`, the two `Attr` overloads, `Px`, `Dip`, `Sp`, and the `Component`/`Reference` builder overloads. It also gives the single-element methods of varargs props, the type arguments of builder parameters, and the body each method gets. Finally, it gives the body of the generated `matches`, with an interpreter (`Run`) that makes that body's meaning precise. JavaPoet's specs become plain records (`GenField`, `GenMethod`, `Stmt`, `MatchStmt`). An exception the generator would raise becomes a `Result` error.
- **`ComponentTrees`** (`component_tree.dfy`). This is the layout-state controller as its test pins it down. A `ComponentTree` holds:
  - a root;
  - width and height specs and a has-spec flag;
  - a main-thread and a background `LayoutState` slot;
  - one coalesced task waiting on the layout thread;
  - its `ComponentView`.

  A `ComponentView` holds its tree. Both are classes whose methods update those fields. The layout algorithm is a parameter of the tree, a total function from a root and two specs to a measured size. A `LayoutState` is immutable. The methods are:
  - `SetSizeSpec` lays out synchronously into the background slot;
  - `SetSizeSpecAsync` only records the specs and queues the task;
  - `RunOneTask` steps the layout thread;
  - `SetRoot` and `SetRootAndSizeSpec` replace the root;
  - `Release` ends the tree;
  - `ComponentView.SetComponent` keeps the view–tree pairing one-to-one.

  Each test of `ComponentTreeTest` is a method. Its `ensures` clauses are the test's assertions, proved from the operations' contracts.

`wrappers.dfy` holds `Option`, which stands in for Java's nullable references.

The implementation of `ComponentTree`, `ComponentView` and `LayoutState` is not part of this model. The controller is pinned down by the assertions of `ComponentTreeTest.java`. Where those leave a choice open, the model makes its own assumptions:
- Reuse follows this model's compatibility rule, `LayoutState.IsCompatibleComponentAndSpec`. A cached spec serves a request that is equal to it. An AT_MOST result also serves an EXACTLY request for the size it measured. A result is never reused for another component id. This is a simple rule that satisfies the reuse and root-change tests; the tests do not pin down a unique one.
- `SetRoot` drops a background result laid out for another component. It lays out nothing until a spec is set again. The test only covers `setRoot` on a tree without a spec, where nothing can be laid out either way. This model makes the same choice for a tree that has one.
- After `Release`, `SetSizeSpec`, `SetSizeSpecAsync`, `SetRoot` and `SetRootAndSizeSpec` answer `IllegalState` and change nothing, and so does `ComponentView.SetComponent` when it is given the released tree. `Release` itself and `RunOneTask` have no error result: on a released tree they change nothing, since nothing is queued.
- Every view and tree points back to its partner. Each tree's and each view's `Valid()` states this, and every operation preserves it.

## Model

| member | source | states |
|---|---|---|
| MatcherGenerator.PropMatcherName | litho-processor/src/main/java/com/facebook/litho/specmodels/generator/testing/MatcherGenerator.java:235-244 | An empty name is an error. Otherwise the field name is 8 characters longer than the prop name. It is `m`, then the upper-cased first character, then the rest of the name, then `Matcher`. |
| MatcherGenerator.MatcherFieldNameCollision | litho-processor/src/main/java/com/facebook/litho/specmodels/generator/testing/MatcherGenerator.java:235-244 | Two props get the same matcher field exactly when their names agree after upper-casing the first character. |
| MatcherGenerator.RawType | litho-processor/src/main/java/com/facebook/litho/specmodels/generator/testing/MatcherGenerator.java:196-198 | The raw type is never parameterized. |
| MatcherGenerator.RawTypeIdempotent | litho-processor/src/main/java/com/facebook/litho/specmodels/generator/testing/MatcherGenerator.java:196-198 | getRawType strips the type arguments of a parameterized type and leaves any other type alone, so applying it twice changes nothing. |
| MatcherGenerator.BuilderGenericTypes | litho-processor/src/main/java/com/facebook/litho/specmodels/generator/testing/MatcherGenerator.java:402-415 | Component.Builder gets two type arguments and any other builder one. The first is the type's first type argument if it has one, else `? extends ComponentLifecycle`. The second is `? extends Object`. |
| MatcherGenerator.PropsBuilderMethods | litho-processor/src/main/java/com/facebook/litho/specmodels/generator/testing/MatcherGenerator.java:89-194 | A prop's members are generated exactly when its name is non-empty and, for a varargs prop, its type is parameterized with a type argument. Otherwise the generator fails, and an empty name fails with the name error. |
| MatcherGenerator.GenerateBuilderMembers | litho-processor/src/main/java/com/facebook/litho/specmodels/generator/testing/MatcherGenerator.java:80-82 | The builder is generated exactly when every prop can be. It then has one matcher field per prop, in declaration order. Its methods are each prop's setter and overloads, prop after prop in declaration order (`MethodsInOrder`). |
| MatcherGenerator.EveryPropHasItsSetter | litho-processor/src/main/java/com/facebook/litho/specmodels/generator/testing/MatcherGenerator.java:80-82 | Every prop's `matcher` setter is among the builder's methods. |
| MatcherGenerator.FieldAndSetterPerProp | litho-processor/src/main/java/com/facebook/litho/specmodels/generator/testing/MatcherGenerator.java:89-92 | Every prop gets exactly one `@Nullable` field of type `Matcher<boxed raw type>`, named by getPropMatcherName. Its first method is a setter named after the prop that stores its `matcher` parameter in that field. |
| MatcherGenerator.PlanSignaturesKept | litho-processor/src/main/java/com/facebook/litho/specmodels/generator/testing/MatcherGenerator.java:445-496 | Whichever body getMethodSpecBuilder chooses, the method keeps the name, parameter count and varargs flag it was asked for. |
| MatcherGenerator.PlanTable | litho-processor/src/main/java/com/facebook/litho/specmodels/generator/testing/MatcherGenerator.java:103-183 | The switch on the resource type asks for exactly the overloads of the reference table, in its order, by name, arity and varargs flag. |
| MatcherGenerator.ResTypeMethodTable | litho-processor/src/main/java/com/facebook/litho/specmodels/generator/testing/MatcherGenerator.java:103-183 | In the methods a prop contributes, the run right after the field setter and the varargs methods matches the reference table of its resource type by name, arity and varargs flag, and only the builder overloads follow it. STRING gets regular, Res, varargs Res(resId, formatArgs) and two Attr. STRING_ARRAY, INT, INT_ARRAY, BOOL, COLOR, FLOAT and DRAWABLE get regular, Res and two Attr. DIMEN_SIZE and DIMEN_OFFSET get Px, Res, two Attr and Dip. DIMEN_TEXT also gets Sp. NONE gets only regular. DRAWABLE_REFERENCE gets nothing. |
| MatcherGenerator.PlanDetailsTable | litho-processor/src/main/java/com/facebook/litho/specmodels/generator/testing/MatcherGenerator.java:103-183 | The switch asks each overload for the parameters and the matched value that a second reference table (`ResTypeDetails`, built from the per-type resolver `ResolverOf` and resource annotation `ResAnnotationOf`) gives. |
| MatcherGenerator.ResTypeMethodDetails | litho-processor/src/main/java/com/facebook/litho/specmodels/generator/testing/MatcherGenerator.java:103-183 | In the same run of a prop's methods, each overload takes the parameters of `ResTypeDetails` and, for a non-varargs prop, sets the matcher field to `is` of its value. Regular takes the prop's type (`@ColorInt` for COLOR) and matches the value itself. Res takes an int `resId` marked with the type's resource annotation and matches `<resolver>Res(resId)`. The varargs Res adds `Object[] formatArgs`. Attr takes `@AttrRes int attrResId` and maybe `defResId`, and matches `<resolver>Attr`. Px takes the prop's type marked `@Px`. Dip takes a `@Dimension(DP) float dips` and matches `dipsToPixels(dips)`. Sp takes a `@Dimension(SP) float sips` and matches `sipsToPixels(sips)`. DIMEN_TEXT resolves with `resolveDimenSize`, and FLOAT's resource id is marked `@DimenRes`. |
| MatcherGenerator.RegularSetterIff | litho-processor/src/main/java/com/facebook/litho/specmodels/generator/testing/MatcherGenerator.java:103-183 | In that run of a prop's methods, there is one named after the prop itself if and only if the type is not DIMEN_SIZE, DIMEN_TEXT, DIMEN_OFFSET or DRAWABLE_REFERENCE. |
| MatcherGenerator.AttrOverloads | litho-processor/src/main/java/com/facebook/litho/specmodels/generator/testing/MatcherGenerator.java:319-345 | attrBuilders makes two `<name>Attr` overloads that share their first parameter `attrResId`. One also takes `defResId` and resolves `(attrResId, defResId)`. The other resolves `(attrResId, 0)`. |
| MatcherGenerator.MethodBodies | litho-processor/src/main/java/com/facebook/litho/specmodels/generator/testing/MatcherGenerator.java:445-496 | Every generated method returns the builder and ends with `return this`. After the setter, a method of a non-varargs prop sets the prop's matcher field to `is` of a value cast to the prop's raw type. A method of a varargs prop never touches a matcher field. |
| MatcherGenerator.VarArgMethods | litho-processor/src/main/java/com/facebook/litho/specmodels/generator/testing/MatcherGenerator.java:94-101 | A varargs prop gets a method named by its single name that takes one element and only null-checks it. A Component element also gets a `<single>Builder` overload that passes the built element on, typed by getBuilderGenericTypes of the element. Every later method only null-checks the prop and returns. |
| MatcherGenerator.BuilderBuilderOverloads | litho-processor/src/main/java/com/facebook/litho/specmodels/generator/testing/MatcherGenerator.java:185-191 | The last methods a prop gets depend on its raw type. A Component prop gets exactly one `<name>(Component.Builder<T, ? extends Object> <name>Builder)`. A Reference prop gets exactly one `<name>(Reference.Builder<T> <name>Builder)`. T is the prop type's first type argument, or `? extends ComponentLifecycle`. Any other prop gets none. The body stores `is` of the built value, or only null-checks for a varargs prop. |
| MatcherGenerator.PropChecks | litho-processor/src/main/java/com/facebook/litho/specmodels/generator/testing/MatcherGenerator.java:513-521 | There is one check per prop. The checks exist exactly when every prop name is non-empty. |
| MatcherGenerator.MatchMethodBody | litho-processor/src/main/java/com/facebook/litho/specmodels/generator/testing/MatcherGenerator.java:498-526 | The body opens with the class check, then the cast to the implementation class, then the per-prop checks in declaration order, and ends with `return true`. It exists exactly when every prop name is non-empty. |
| MatcherGenerator.RunChecks | litho-processor/src/main/java/com/facebook/litho/specmodels/generator/testing/MatcherGenerator.java:513-523 | Running the per-prop checks followed by `return true` yields true exactly when every prop's matcher is null or accepts the implementation's field. |
| MatcherGenerator.MatchesIff | litho-processor/src/main/java/com/facebook/litho/specmodels/generator/testing/MatcherGenerator.java:498-526 | The generated `matches` always returns, given that casts and matchers do not throw. It returns true if and only if the component class is assignable and every prop whose matcher is set accepts the implementation's field of that name. |
| MatcherGenerator.NullMatchersImposeNothing | litho-processor/src/main/java/com/facebook/litho/specmodels/generator/testing/MatcherGenerator.java:516-520 | With no matcher set, `matches` is decided by the class check alone. |
| ComponentTrees.LayoutState.Calculate | src/test/java/com/facebook/litho/ComponentTreeTest.java:136-140 | A layout state records the component id and specs it was computed for, and the size the layout function measured. |
| ComponentTrees.ComponentTree.Create | src/test/java/com/facebook/litho/ComponentTreeTest.java:143-158 | A new tree holds exactly the given root. It has no size spec, no view measure spec, no view, no results in either slot and no queued task, and it is not attached. |
| ComponentTrees.ComponentTree.CalculateLayout | src/test/java/com/facebook/litho/ComponentTreeTest.java:267-327 | Afterwards the background slot holds a result compatible with the root and specs. A compatible result already there is kept as the same object. Otherwise a fresh result laid out for the root and specs is stored. |
| ComponentTrees.ComponentTree.SetSizeSpec | src/test/java/com/facebook/litho/ComponentTreeTest.java:160-172 | A released tree answers IllegalState and is unchanged. Otherwise the specs are stored and has-spec is set, and the main slot stays empty. The background slot holds a result compatible with (root id, w, h), the same object when one already was, and the reported size is its measured size. Under a layout that honours EXACTLY, an EXACTLY axis reports the spec's size. |
| ComponentTrees.ComponentTree.SetSizeSpecAsync | src/test/java/com/facebook/litho/ComponentTreeTest.java:181-193 | A released tree answers IllegalState. Otherwise the specs and has-spec are recorded and the task is queued. Both slots are left as they were: nothing is laid out. |
| ComponentTrees.ComponentTree.RunOneTask | src/test/java/com/facebook/litho/ComponentTreeTest.java:195-200 | With a task queued, the task is dequeued and the background slot then holds a result compatible with the specs current when it runs. A result that is already compatible is kept. With no task queued, nothing changes. |
| ComponentTrees.ComponentTree.SetRoot | src/test/java/com/facebook/litho/ComponentTreeTest.java:329-351 | A released tree answers IllegalState. Otherwise the root is replaced and specs, has-spec and queue are kept. A background result for another component id is dropped, and nothing is laid out. |
| ComponentTrees.ComponentTree.SetRootAndSizeSpec | src/test/java/com/facebook/litho/ComponentTreeTest.java:299-327 | A released tree answers IllegalState. Otherwise the new root and specs are stored. When the previous result was laid out for another component, the background slot gets a fresh result laid out for the new root, never the old one. |
| ComponentTrees.ComponentTree.Release | src/test/java/com/facebook/litho/ComponentTreeTest.java:388-407 | The tree drops its root, both results, its queued task and its view, and keeps its specs and flags. The view it held, which pointed back to it, no longer holds a tree. Both sides stay valid. |
| ComponentTrees.ComponentView.SetComponent | src/test/java/com/facebook/litho/ComponentTreeTest.java:353-386 | A released tree is refused with IllegalState and nothing changes. Otherwise the view and the new tree point at each other. The tree the view held loses its view, and the view the tree was on loses its tree. Every tree and view involved keeps its back-reference invariant. |
| ComponentTrees.ExactSpecFixesSize | src/test/java/com/facebook/litho/ComponentTreeTest.java:247-265 | A result compatible with an EXACTLY axis measured that axis at the spec's size, whether it was laid out for that spec or kept from AT_MOST, provided the layout honours EXACTLY. |
| ComponentTrees.TestCreate | src/test/java/com/facebook/litho/ComponentTreeTest.java:143-158 | The assertions of testCreate and creationCommonChecks. |
| ComponentTrees.TestSetSizeSpec | src/test/java/com/facebook/litho/ComponentTreeTest.java:160-172 | After setSizeSpec, postSizeSpecChecks holds for the background slot. |
| ComponentTrees.TestSetSizeSpecAsync | src/test/java/com/facebook/litho/ComponentTreeTest.java:174-201 | The specs are recorded with both slots empty before the task runs, and postSizeSpecChecks holds after it runs. |
| ComponentTrees.RunToEndOfTasks | src/test/java/com/facebook/litho/ComponentTreeTest.java:214 | Draining the queue leaves no task. The root and specs are kept, and a result compatible with them stands when a task ran. |
| ComponentTrees.TestSetSizeSpecAsyncThenSyncBeforeRunningTask | src/test/java/com/facebook/litho/ComponentTreeTest.java:203-223 | Async (w1, h1), then sync (w2, h2), then draining the queue leaves (w2, h2) stored and a background result compatible with them. |
| ComponentTrees.TestSetSizeSpecAsyncThenSyncAfterRunningTask | src/test/java/com/facebook/litho/ComponentTreeTest.java:225-245 | Async (w1, h1), then draining the queue, then sync (w2, h2) leaves (w2, h2) stored and a background result compatible with them. |
| ComponentTrees.TestSetSizeSpecWithOutput | src/test/java/com/facebook/litho/ComponentTreeTest.java:247-265 | With EXACTLY specs and a layout that honours them, the reported size is the specs' sizes, and postSizeSpecChecks holds. |
| ComponentTrees.TestSetCompatibleSizeSpec | src/test/java/com/facebook/litho/ComponentTreeTest.java:267-297 | When AT_MOST 100 x AT_MOST 100 measures 100 x 100, both calls report 100 x 100. EXACTLY 100 x EXACTLY 100 keeps the identical background result. |
| ComponentTrees.TestSetCompatibleSizeSpecWithDifferentRoot | src/test/java/com/facebook/litho/ComponentTreeTest.java:299-327 | setRootAndSizeSpec with a component of another id leaves a background result that is a different object from the first one. |
| ComponentTrees.TestSetInput | src/test/java/com/facebook/litho/ComponentTreeTest.java:329-351 | setRoot before any spec leaves the creation state with the new root. The next setSizeSpec satisfies postSizeSpecChecks for the new root's id. |
| ComponentTrees.TestSetComponentFromView | src/test/java/com/facebook/litho/ComponentTreeTest.java:353-386 | Moving a view from one tree to a second one clears the first tree's view and pairs the second. |
| ComponentTrees.TestComponentTreeReleaseClearsView | src/test/java/com/facebook/litho/ComponentTreeTest.java:388-407 | Releasing a tree clears the component of the view it was set on. |
| ComponentTrees.TestSettingNewViewToTree | src/test/java/com/facebook/litho/ComponentTreeTest.java:435-465 | Moving a tree to a second view pairs it with that view and clears the first view's tree. |

## Left out

- JavaPoet emission is not modelled: source text, `$L`/`$T`/`$N` formatting, modifiers, `TypeSpec` assembly. Generated members are records.
- The factory method, the builder's constructor and `generateBuildMethod`'s anonymous `ComponentMatcher` class are not modelled. The `matches` body they wrap is modelled.
- Annotations are opaque tags: a class name, or `@Dimension` with its unit. `dipsToPixels` and `sipsToPixels` are calls by name, because their floating-point conversions are not part of this model.
- Class names are fixed strings standing in for JavaPoet's `ClassName` constants. The rules only rely on these strings being distinct.
- MatcherGenerator.PropMatcherName: `Character.toUpperCase` is modelled on ASCII letters only, and each `char` is one code point. Surrogate pairs and other scripts' case mappings are not modelled.
- ComponentTrees.ComponentTree: the real layout and measure algorithm is a parameter, `LayoutFunction`. Only the tested cases constrain it: a layout that honours EXACTLY, and AT_MOST 100 measuring 100 x 100.
- ComponentTrees.LayoutState.IsCompatibleComponentAndSpec: the compatibility rule is this model's assumption, because `LayoutState.java` is not part of this model. The rule is equal specs, or an AT_MOST result reused for an EXACTLY request at its measured size, and never across component ids.
- ComponentTrees.ComponentTree.SetRoot: lays out nothing, even when a spec is already set. This is this model's assumption, because `ComponentTree.java` is not part of this model. Its test only covers a tree without a spec.
- MatcherGenerator.Run: the cast `(Impl) value.getComponent()` always succeeds, and a matcher's `matches` always returns. In Java, the cast can throw when the class check passes for a proper superclass, and a matcher can throw. `MatchesIff`'s "always returns" holds only under these assumptions.
- ComponentTrees.ComponentTree: nothing fills the main-thread slot. Promotion to the main thread belongs to mounting, which is not modelled. `hasViewMeasureSpec` and `isAttached` stay false, because measuring from a view and window attachment (`onAttachedToWindow`) are not modelled.
- ComponentTrees.ComponentView.SetComponent: re-setting the tree a view already holds changes nothing. The rebind it triggers on an attached view is not modelled.
- testsetTreeToTwoViewsBothAttached is not modelled as a scenario. It only checks that attaching a tree to a second attached view raises nothing. Without window attachment, that is `TestSettingNewViewToTree`.
- Robolectric's `ShadowLooper` is replaced by an explicit one-task queue, `RunOneTask` and `RunToEndOfTasks`. `Whitebox` reflection is replaced by plain field reads.
- Locking, the real layout thread and the compatibility re-check after an unlocked layout are not modelled. All calls are sequential steps.
- The `incrementalMount` and `layoutDiffing` builder flags are not modelled.
- `SizeSpec`'s packing of size and mode into one `int` is not modelled. A spec is a pair.
- A failing layout computation is not modelled. The layout function is total.
