/**
 * The ComponentTree layout-state controller and its ComponentView host, with
 * the state its tests observe: the root, the width and height specs and
 * whether they are set, the main-thread and background layout slots, the
 * layout task waiting on the layout thread, and the view/tree pairing.
 *
 * The layout algorithm is a parameter of the tree: a total, deterministic
 * function from a root and two specs to a measured size.
 */
module ComponentTrees {
  import opened Wrappers

  datatype Mode = Unspecified | Exactly | AtMost

  /** A measure spec: a size and a mode, kept apart rather than packed into an int. */
  datatype SizeSpec = SizeSpec(size: nat, mode: Mode)

  datatype Size = Size(width: nat, height: nat)

  /** A root component; only its id matters to the tree. */
  datatype Component = Component(id: int)

  type LayoutFunction = (Component, SizeSpec, SizeSpec) -> Size

  /** The result of a mutator: its value, or the failure of a call on a released tree. */
  datatype Outcome<T> = Done(value: T) | IllegalState

  /**
   * One axis of the compatibility rule: the spec a result was computed for
   * serves a requested spec when the two are equal, or when an AT_MOST
   * result is asked for EXACTLY the size it measured.
   */
  predicate CompatibleSpec(cached: SizeSpec, requested: SizeSpec, measured: nat) {
    cached == requested
    || (cached.mode == AtMost && requested.mode == Exactly && requested.size == measured)
  }

  /** A layout that measures an EXACTLY axis at exactly the spec's size. */
  ghost predicate HonoursExactly(layout: LayoutFunction) {
    forall c: Component, w: SizeSpec, h: SizeSpec {:trigger layout(c, w, h)} ::
      (w.mode == Exactly ==> layout(c, w, h).width == w.size)
      && (h.mode == Exactly ==> layout(c, w, h).height == h.size)
  }

  /** An immutable layout result: what it was computed for and what it measured. */
  class LayoutState {
    const componentId: int
    const widthSpec: SizeSpec
    const heightSpec: SizeSpec
    const width: nat
    const height: nat

    constructor Calculate(layout: LayoutFunction, root: Component, w: SizeSpec, h: SizeSpec)
      ensures componentId == root.id && widthSpec == w && heightSpec == h
      ensures Size(width, height) == layout(root, w, h)
    {
      var size := layout(root, w, h);
      componentId, widthSpec, heightSpec := root.id, w, h;
      width, height := size.width, size.height;
    }

    predicate IsCompatibleComponentAndSpec(id: int, w: SizeSpec, h: SizeSpec) {
      componentId == id
      && CompatibleSpec(widthSpec, w, width)
      && CompatibleSpec(heightSpec, h, height)
    }

    ghost predicate ComputedBy(layout: LayoutFunction) {
      Size(width, height) == layout(Component(componentId), widthSpec, heightSpec)
    }
  }

  function TreeSet(t: ComponentTree?): set<ComponentTree> {
    if t == null then {} else {t}
  }

  function ViewSet(v: ComponentView?): set<ComponentView> {
    if v == null then {} else {v}
  }

  /** The view a tree is paired with, as a frame. */
  function ViewOf(t: ComponentTree?): set<ComponentView>
    reads t
  {
    if t == null then {} else ViewSet(t.view)
  }

  class ComponentTree {
    const layout: LayoutFunction
    var root: Option<Component>
    var widthSpec: SizeSpec
    var heightSpec: SizeSpec
    var hasSizeSpec: bool
    var hasViewMeasureSpec: bool
    var isAttached: bool
    var mainThreadLayoutState: LayoutState?
    var backgroundLayoutState: LayoutState?
    /** Whether a layout task waits on the layout thread (at most one: requests coalesce). */
    var layoutTaskQueued: bool
    var view: ComponentView?
    var released: bool

    /**
     * The controller's invariant: nothing here fills the main-thread slot;
     * a background result was computed by the tree's layout for the current
     * root; a released tree holds no root, no results, no view and no task;
     * the tree's view points back to it.
     */
    ghost predicate Valid()
      reads this, ViewSet(view)
    {
      && (view != null ==> view.component == this)
      && mainThreadLayoutState == null
      && (backgroundLayoutState != null ==>
            && backgroundLayoutState.ComputedBy(layout)
            && hasSizeSpec
            && root.Some?
            && backgroundLayoutState.componentId == root.value.id)
      && (released <==> root.None?)
      && (released ==> backgroundLayoutState == null && view == null && !layoutTaskQueued)
      && (layoutTaskQueued ==> hasSizeSpec)
    }

    /** ComponentTree.create(context, root).build(): no spec, no result, no view. */
    constructor Create(layout: LayoutFunction, root: Component)
      ensures Valid()
      ensures this.layout == layout && this.root == Some(root)
      ensures !hasSizeSpec && !hasViewMeasureSpec && !isAttached
      ensures mainThreadLayoutState == null && backgroundLayoutState == null
      ensures view == null && !layoutTaskQueued && !released
    {
      this.layout := layout;
      this.root := Some(root);
      widthSpec, heightSpec := SizeSpec(0, Unspecified), SizeSpec(0, Unspecified);
      hasSizeSpec, hasViewMeasureSpec, isAttached := false, false, false;
      mainThreadLayoutState, backgroundLayoutState := null, null;
      layoutTaskQueued, view, released := false, null, false;
    }

    /**
     * The layout pass: keep a background result compatible with the root and
     * the specs, or compute a fresh one into the background slot.
     */
    method CalculateLayout(w: SizeSpec, h: SizeSpec)
      requires Valid() && root.Some? && hasSizeSpec
      modifies this`backgroundLayoutState
      ensures Valid()
      ensures backgroundLayoutState != null
      ensures backgroundLayoutState.IsCompatibleComponentAndSpec(root.value.id, w, h)
      ensures old(backgroundLayoutState) != null
              && old(backgroundLayoutState).IsCompatibleComponentAndSpec(root.value.id, w, h)
              ==> backgroundLayoutState == old(backgroundLayoutState)
      ensures backgroundLayoutState != old(backgroundLayoutState) ==>
                && fresh(backgroundLayoutState)
                && backgroundLayoutState.widthSpec == w && backgroundLayoutState.heightSpec == h
                && Size(backgroundLayoutState.width, backgroundLayoutState.height)
                   == layout(root.value, w, h)
    {
      var current := backgroundLayoutState;
      if current == null || !current.IsCompatibleComponentAndSpec(root.value.id, w, h) {
        backgroundLayoutState := new LayoutState.Calculate(layout, root.value, w, h);
      }
    }

    /**
     * setSizeSpec(w, h, size): store the specs and lay out synchronously into
     * the background slot; the returned size is the measured size of the
     * result that now stands there.
     */
    method SetSizeSpec(w: SizeSpec, h: SizeSpec) returns (r: Outcome<Size>)
      requires Valid()
      modifies this
      ensures Valid()
      ensures old(released) ==> r == IllegalState && unchanged(this)
      ensures !old(released) ==>
        && r.Done?
        && widthSpec == w && heightSpec == h && hasSizeSpec
        && root == old(root) && view == old(view) && released == old(released)
        && layoutTaskQueued == old(layoutTaskQueued)
        && hasViewMeasureSpec == old(hasViewMeasureSpec) && isAttached == old(isAttached)
        && mainThreadLayoutState == null
        && backgroundLayoutState != null
        && backgroundLayoutState.IsCompatibleComponentAndSpec(root.value.id, w, h)
        && r.value == Size(backgroundLayoutState.width, backgroundLayoutState.height)
        && (old(backgroundLayoutState) != null
            && old(backgroundLayoutState).IsCompatibleComponentAndSpec(root.value.id, w, h)
            ==> backgroundLayoutState == old(backgroundLayoutState))
        && (backgroundLayoutState != old(backgroundLayoutState) ==>
              fresh(backgroundLayoutState) && r.value == layout(root.value, w, h))
        && (HonoursExactly(layout) && w.mode == Exactly ==> r.value.width == w.size)
        && (HonoursExactly(layout) && h.mode == Exactly ==> r.value.height == h.size)
    {
      if released {
        return IllegalState;
      }
      widthSpec, heightSpec, hasSizeSpec := w, h, true;
      CalculateLayout(w, h);
      r := Done(Size(backgroundLayoutState.width, backgroundLayoutState.height));
      ExactSpecFixesSize(backgroundLayoutState, layout, root.value.id, w, h);
    }

    /** setSizeSpecAsync(w, h): record the specs and queue the layout task; compute nothing. */
    method SetSizeSpecAsync(w: SizeSpec, h: SizeSpec) returns (r: Outcome<()>)
      requires Valid()
      modifies this
      ensures Valid()
      ensures old(released) ==> r == IllegalState && unchanged(this)
      ensures !old(released) ==>
        && r.Done?
        && widthSpec == w && heightSpec == h && hasSizeSpec && layoutTaskQueued
        && root == old(root) && view == old(view) && released == old(released)
        && hasViewMeasureSpec == old(hasViewMeasureSpec) && isAttached == old(isAttached)
        && mainThreadLayoutState == old(mainThreadLayoutState)
        && backgroundLayoutState == old(backgroundLayoutState)
    {
      if released {
        return IllegalState;
      }
      widthSpec, heightSpec, hasSizeSpec := w, h, true;
      layoutTaskQueued := true;
      r := Done(());
    }

    /**
     * The layout thread runs its one queued task: it lays out for the specs
     * current at that moment, so the latest request wins.
     */
    method RunOneTask()
      requires Valid()
      modifies this
      ensures Valid()
      ensures !old(layoutTaskQueued) ==> unchanged(this)
      ensures old(layoutTaskQueued) ==>
        && !layoutTaskQueued
        && widthSpec == old(widthSpec) && heightSpec == old(heightSpec) && hasSizeSpec
        && root == old(root) && view == old(view) && released == old(released)
        && hasViewMeasureSpec == old(hasViewMeasureSpec) && isAttached == old(isAttached)
        && mainThreadLayoutState == null
        && backgroundLayoutState != null
        && backgroundLayoutState.IsCompatibleComponentAndSpec(root.value.id, widthSpec, heightSpec)
        && (old(backgroundLayoutState) != null
            && old(backgroundLayoutState).IsCompatibleComponentAndSpec(root.value.id, widthSpec, heightSpec)
            ==> backgroundLayoutState == old(backgroundLayoutState))
    {
      if layoutTaskQueued {
        layoutTaskQueued := false;
        CalculateLayout(widthSpec, heightSpec);
      }
    }

    /**
     * setRoot(c): replace the root; a background result laid out for another
     * component is dropped; no layout is computed.
     */
    method SetRoot(c: Component) returns (r: Outcome<()>)
      requires Valid()
      modifies this
      ensures Valid()
      ensures old(released) ==> r == IllegalState && unchanged(this)
      ensures !old(released) ==>
        && r.Done?
        && root == Some(c)
        && widthSpec == old(widthSpec) && heightSpec == old(heightSpec)
        && hasSizeSpec == old(hasSizeSpec) && layoutTaskQueued == old(layoutTaskQueued)
        && view == old(view) && released == old(released)
        && hasViewMeasureSpec == old(hasViewMeasureSpec) && isAttached == old(isAttached)
        && mainThreadLayoutState == null
        && (old(backgroundLayoutState) != null && old(backgroundLayoutState).componentId == c.id
            ==> backgroundLayoutState == old(backgroundLayoutState))
        && (old(backgroundLayoutState) == null || old(backgroundLayoutState).componentId != c.id
            ==> backgroundLayoutState == null)
    {
      if released {
        return IllegalState;
      }
      root := Some(c);
      if backgroundLayoutState != null && backgroundLayoutState.componentId != c.id {
        backgroundLayoutState := null;
      }
      r := Done(());
    }

    /**
     * setRootAndSizeSpec(c, w, h, size): replace the root and lay out
     * synchronously; a result for another component is never reused.
     */
    method SetRootAndSizeSpec(c: Component, w: SizeSpec, h: SizeSpec) returns (r: Outcome<Size>)
      requires Valid()
      modifies this
      ensures Valid()
      ensures old(released) ==> r == IllegalState && unchanged(this)
      ensures !old(released) ==>
        && r.Done?
        && root == Some(c) && widthSpec == w && heightSpec == h && hasSizeSpec
        && view == old(view) && released == old(released)
        && layoutTaskQueued == old(layoutTaskQueued)
        && hasViewMeasureSpec == old(hasViewMeasureSpec) && isAttached == old(isAttached)
        && mainThreadLayoutState == null
        && backgroundLayoutState != null
        && backgroundLayoutState.IsCompatibleComponentAndSpec(c.id, w, h)
        && r.value == Size(backgroundLayoutState.width, backgroundLayoutState.height)
        && (old(backgroundLayoutState) == null || old(backgroundLayoutState).componentId != c.id
            ==> fresh(backgroundLayoutState) && r.value == layout(c, w, h))
    {
      var done := SetRoot(c);
      r := SetSizeSpec(w, h);
    }

    /**
     * release(): the tree gives up its view (whose component becomes null),
     * its root and its results, and refuses every later mutation.
     */
    method Release()
      requires Valid()
      modifies this, ViewSet(view)`component
      ensures Valid()
      ensures released && root.None?
      ensures mainThreadLayoutState == null && backgroundLayoutState == null
      ensures view == null && !layoutTaskQueued
      ensures old(view) != null ==> old(view).component == null && old(view).Valid()
      ensures widthSpec == old(widthSpec) && heightSpec == old(heightSpec)
      ensures hasSizeSpec == old(hasSizeSpec)
      ensures hasViewMeasureSpec == old(hasViewMeasureSpec) && isAttached == old(isAttached)
    {
      if view != null {
        view.component := null;
      }
      view := null;
      root := None;
      mainThreadLayoutState, backgroundLayoutState := null, null;
      layoutTaskQueued := false;
      released := true;
    }
  }

  /** A view that hosts at most one tree, and is the only view of that tree. */
  class ComponentView {
    var component: ComponentTree?

    /** The view's tree points back to it. */
    ghost predicate Valid()
      reads this, TreeSet(component)
    {
      component != null ==> component.view == this
    }

    constructor()
      ensures Valid() && component == null
    {
      component := null;
    }

    /**
     * setComponent(t): pair this view with t (or with nothing). The tree this
     * view held loses its view, and the view t was on loses its tree, so the
     * pairing stays one-to-one. A released tree is refused and nothing changes.
     */
    method SetComponent(t: ComponentTree?) returns (r: Outcome<()>)
      requires Valid()
      requires component != null ==> component.Valid()
      requires t != null ==> t.Valid()
      modifies this, TreeSet(component)`view, TreeSet(t)`view, ViewOf(t)`component
      ensures Valid()
      ensures old(component) != null ==> old(component).Valid()
      ensures t != null ==> t.Valid()
      ensures t != null && old(t.view) != null ==> old(t.view).Valid()
      ensures t != null && old(t.released) ==>
        r == IllegalState && unchanged(this, t) && unchanged(TreeSet(component))
      ensures !(t != null && old(t.released)) ==>
        && r.Done?
        && component == t
        && (t != null ==> t.view == this)
        && (old(component) != null && old(component) != t ==> old(component).view == null)
        && (t != null && old(t.view) != null && old(t.view) != this ==> old(t.view).component == null)
    {
      if t != null && t.released {
        return IllegalState;
      }
      r := Done(());
      if component == t {
        return;
      }
      if component != null {
        component.view := null;
      }
      if t != null {
        if t.view != null {
          t.view.component := null;
        }
        t.view := this;
      }
      component := t;
    }
  }

  /**
   * A result compatible with an EXACTLY axis measured exactly that size,
   * whether it was laid out for that spec or reused from AT_MOST.
   */
  lemma ExactSpecFixesSize(ls: LayoutState, layout: LayoutFunction, id: int, w: SizeSpec, h: SizeSpec)
    requires ls.ComputedBy(layout) && ls.IsCompatibleComponentAndSpec(id, w, h)
    ensures HonoursExactly(layout) && w.mode == Exactly ==> ls.width == w.size
    ensures HonoursExactly(layout) && h.mode == Exactly ==> ls.height == h.size
  {
    if HonoursExactly(layout) {
      var size := layout(Component(ls.componentId), ls.widthSpec, ls.heightSpec);
      assert size == Size(ls.width, ls.height);
    }
  }

  // ---------------------------------------------------------------------
  // The test scenarios
  //
  // A test that asserts something midway, before a later call changes the
  // state, records that check in a boolean out-parameter (queuedOnly,
  // beforeSpec, onFirst, pairedBefore) taken at that point; `ensures` of
  // the boolean then states that the midway assertion held.
  // ---------------------------------------------------------------------

  /** postSizeSpecChecks: specs stored, main slot empty, background result compatible. */
  predicate PostSizeSpecChecks(t: ComponentTree, id: int, w: SizeSpec, h: SizeSpec)
    reads t
  {
    && t.hasSizeSpec && t.widthSpec == w && t.heightSpec == h
    && t.mainThreadLayoutState == null
    && t.backgroundLayoutState != null
    && t.backgroundLayoutState.IsCompatibleComponentAndSpec(id, w, h)
  }

  /** creationCommonChecks: no view, not attached, no view measure spec, the given root. */
  predicate CreationCommonChecks(t: ComponentTree, c: Component)
    reads t
  {
    t.view == null && !t.isAttached && !t.hasViewMeasureSpec && t.root == Some(c)
  }

  method TestCreate(layout: LayoutFunction, c: Component) returns (t: ComponentTree)
    ensures CreationCommonChecks(t, c)
    ensures t.mainThreadLayoutState == null && t.backgroundLayoutState == null
    ensures !t.hasSizeSpec
  {
    t := new ComponentTree.Create(layout, c);
  }

  method TestSetSizeSpec(layout: LayoutFunction, c: Component, w: SizeSpec, h: SizeSpec)
    returns (t: ComponentTree)
    ensures PostSizeSpecChecks(t, c.id, w, h)
  {
    t := new ComponentTree.Create(layout, c);
    var r := t.SetSizeSpec(w, h);
  }

  /** The async request records the specs at once and lays out only when the task runs. */
  method TestSetSizeSpecAsync(layout: LayoutFunction, c: Component, w: SizeSpec, h: SizeSpec)
    returns (t: ComponentTree, queuedOnly: bool)
    ensures queuedOnly
    ensures PostSizeSpecChecks(t, c.id, w, h)
  {
    t := new ComponentTree.Create(layout, c);
    var r := t.SetSizeSpecAsync(w, h);
    queuedOnly := t.hasSizeSpec && t.widthSpec == w && t.heightSpec == h
      && t.mainThreadLayoutState == null && t.backgroundLayoutState == null;
    t.RunOneTask();
  }

  /** runToEndOfTasks: the queue holds at most the one coalesced task. */
  method RunToEndOfTasks(t: ComponentTree)
    requires t.Valid()
    modifies t
    ensures t.Valid() && !t.layoutTaskQueued
    ensures !old(t.layoutTaskQueued) ==> unchanged(t)
    ensures t.root == old(t.root) && t.widthSpec == old(t.widthSpec) && t.heightSpec == old(t.heightSpec)
    ensures t.hasSizeSpec == old(t.hasSizeSpec) && t.view == old(t.view)
    ensures old(t.layoutTaskQueued) ==>
      && t.backgroundLayoutState != null
      && t.backgroundLayoutState.IsCompatibleComponentAndSpec(t.root.value.id, t.widthSpec, t.heightSpec)
  {
    t.RunOneTask();
  }

  method TestSetSizeSpecAsyncThenSyncBeforeRunningTask(
    layout: LayoutFunction, c: Component, w1: SizeSpec, h1: SizeSpec, w2: SizeSpec, h2: SizeSpec)
    returns (t: ComponentTree)
    ensures PostSizeSpecChecks(t, c.id, w2, h2)
  {
    t := new ComponentTree.Create(layout, c);
    var r1 := t.SetSizeSpecAsync(w1, h1);
    var r2 := t.SetSizeSpec(w2, h2);
    RunToEndOfTasks(t);
  }

  method TestSetSizeSpecAsyncThenSyncAfterRunningTask(
    layout: LayoutFunction, c: Component, w1: SizeSpec, h1: SizeSpec, w2: SizeSpec, h2: SizeSpec)
    returns (t: ComponentTree)
    ensures PostSizeSpecChecks(t, c.id, w2, h2)
  {
    t := new ComponentTree.Create(layout, c);
    var r1 := t.SetSizeSpecAsync(w1, h1);
    RunToEndOfTasks(t);
    var r2 := t.SetSizeSpec(w2, h2);
  }

  /** With a layout that honours EXACTLY, the reported size is the specs' sizes. */
  method TestSetSizeSpecWithOutput(layout: LayoutFunction, c: Component, w: SizeSpec, h: SizeSpec)
    returns (t: ComponentTree, size: Outcome<Size>)
    requires HonoursExactly(layout) && w.mode == Exactly && h.mode == Exactly
    ensures size == Done(Size(w.size, h.size))
    ensures PostSizeSpecChecks(t, c.id, w, h)
  {
    t := new ComponentTree.Create(layout, c);
    size := t.SetSizeSpec(w, h);
  }

  /**
   * A result measured 100x100 under AT_MOST 100 is kept, as the same object,
   * for EXACTLY 100 on the same root.
   */
  method TestSetCompatibleSizeSpec(layout: LayoutFunction, c: Component)
    returns (t: ComponentTree, first: LayoutState, size1: Outcome<Size>, size2: Outcome<Size>)
    requires layout(c, SizeSpec(100, AtMost), SizeSpec(100, AtMost)) == Size(100, 100)
    ensures size1 == Done(Size(100, 100)) && size2 == Done(Size(100, 100))
    ensures t.backgroundLayoutState == first
  {
    t := new ComponentTree.Create(layout, c);
    size1 := t.SetSizeSpec(SizeSpec(100, AtMost), SizeSpec(100, AtMost));
    first := t.backgroundLayoutState;
    size2 := t.SetSizeSpec(SizeSpec(100, Exactly), SizeSpec(100, Exactly));
  }

  /** The same specs on a new root lay out afresh: a different result object. */
  method TestSetCompatibleSizeSpecWithDifferentRoot(layout: LayoutFunction, c: Component, d: Component)
    returns (t: ComponentTree, first: LayoutState)
    requires c.id != d.id
    requires layout(c, SizeSpec(100, AtMost), SizeSpec(100, AtMost)) == Size(100, 100)
    ensures t.backgroundLayoutState != first
  {
    t := new ComponentTree.Create(layout, c);
    var size1 := t.SetSizeSpec(SizeSpec(100, AtMost), SizeSpec(100, AtMost));
    first := t.backgroundLayoutState;
    var size2 := t.SetRootAndSizeSpec(d, SizeSpec(100, Exactly), SizeSpec(100, Exactly));
  }

  /** testSetInput: setRoot before any spec computes nothing; the next spec lays out the new root. */
  method TestSetInput(layout: LayoutFunction, c0: Component, c: Component, w: SizeSpec, h: SizeSpec)
    returns (t: ComponentTree, beforeSpec: bool)
    ensures beforeSpec
    ensures PostSizeSpecChecks(t, c.id, w, h)
  {
    t := new ComponentTree.Create(layout, c0);
    var r := t.SetRoot(c);
    beforeSpec := CreationCommonChecks(t, c)
      && t.mainThreadLayoutState == null && t.backgroundLayoutState == null && !t.hasSizeSpec;
    var r2 := t.SetSizeSpec(w, h);
  }

  /** testSetComponentFromView: moving a view to a second tree clears the first tree's view. */
  method TestSetComponentFromView(layout: LayoutFunction, c1: Component, c2: Component)
    returns (t1: ComponentTree, t2: ComponentTree, v: ComponentView, onFirst: bool)
    ensures onFirst
    ensures t1.view == null && t2.view == v && v.component == t2
  {
    t1 := new ComponentTree.Create(layout, c1);
    t2 := new ComponentTree.Create(layout, c2);
    v := new ComponentView();
    var attached1 := v.SetComponent(t1);
    onFirst := t1.view == v && t2.view == null;
    var attached2 := v.SetComponent(t2);
  }

  /** testComponentTreeReleaseClearsView */
  method TestComponentTreeReleaseClearsView(layout: LayoutFunction, c: Component)
    returns (t: ComponentTree, v: ComponentView, pairedBefore: bool)
    ensures pairedBefore
    ensures v.component == null && t.released
  {
    t := new ComponentTree.Create(layout, c);
    v := new ComponentView();
    var attached3 := v.SetComponent(t);
    pairedBefore := v.component == t;
    t.Release();
  }

  /** testSettingNewViewToTree: moving a tree to a second view clears the first view's tree. */
  method TestSettingNewViewToTree(layout: LayoutFunction, c: Component)
    returns (t: ComponentTree, v1: ComponentView, v2: ComponentView, onFirst: bool)
    ensures onFirst
    ensures t.view == v2 && v2.component == t && v1.component == null
  {
    t := new ComponentTree.Create(layout, c);
    v1 := new ComponentView();
    var attached4 := v1.SetComponent(t);
    onFirst := t.view == v1 && v1.component == t;
    v2 := new ComponentView();
    onFirst := onFirst && v2.component == null;
    var attached5 := v2.SetComponent(t);
  }
}
