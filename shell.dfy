/**
  The main window's page cache (core/main_window.py): pages are built on
  first navigation, appended to the stacked widget and memoised by id.
  Qt widgets are modelled as objects; the stacked widget is the sequence of
  widgets added to it plus its current widget, and the navigation drawer is
  the set of ids it has buttons for plus the checked one.
*/
module Shell {
  import opened Wrappers
  import opened Pages

  /** A page widget, as a page factory returns it: every call builds a new one. */
  class Widget {
    const pageId: string
    const factory: FactoryId

    constructor(pageId: string, factory: FactoryId)
      ensures this.pageId == pageId && this.factory == factory
    {
      this.pageId := pageId;
      this.factory := factory;
    }
  }

  /** `{p.page_id: p for p in pages}`: a later spec wins over an earlier one with the same id. */
  function SpecTable(pages: seq<PageSpec>): (m: map<string, PageSpec>)
    ensures m.Keys == Ids(pages)
    ensures forall id :: id in m ==> m[id] in pages && m[id].page_id == id
  {
    if pages == [] then map[]
    else
      var init, last := pages[..|pages| - 1], pages[|pages| - 1];
      assert pages == init + [last];
      var m := SpecTable(init);
      m[last.page_id := last]
  }

  /**
    Over registered specs, whose ids are distinct, the spec table keeps every
    spec in whatever order they are listed: one key per registered spec.
  */
  lemma SpecTableComplete(registered: seq<PageSpec>, listed: seq<PageSpec>)
    requires DistinctIds(registered) && multiset(listed) == multiset(registered)
    ensures SpecTable(listed).Keys == Ids(registered) && |SpecTable(listed)| == |registered|
  {
    IdsOfPermutation(listed, registered);
    DistinctIdsCount(registered);
    assert |SpecTable(listed).Keys| == |SpecTable(listed)|;
  }

  /** The invariant of the page cache, stated on the window's state as values. */
  ghost predicate Consistent(built: seq<string>, stack: seq<Widget>, widgets: map<string, Widget>,
                             specs: map<string, PageSpec>, current: Widget?)
  {
    && |built| == |stack| == |widgets|
    && (forall i, j :: 0 <= i < j < |built| ==> built[i] != built[j])
    && (forall id :: id in widgets ==> id in built)
    && (forall i :: 0 <= i < |built| ==> built[i] in widgets && widgets[built[i]] == stack[i])
    && (forall id :: id in widgets ==> id in specs && widgets[id].pageId == id)
    && (current != null ==> current in stack)
  }

  /** Building a page that has a spec and no widget yet keeps the invariant. */
  lemma ConsistentBuild(built: seq<string>, stack: seq<Widget>, widgets: map<string, Widget>,
                        specs: map<string, PageSpec>, current: Widget?, id: string, w: Widget)
    requires Consistent(built, stack, widgets, specs, current)
    requires id !in widgets && id in specs && w.pageId == id
    ensures Consistent(built + [id], stack + [w], widgets[id := w], specs, current)
  {
    var built', stack', widgets' := built + [id], stack + [w], widgets[id := w];
    assert |widgets'| == |widgets| + 1;
    forall i | 0 <= i < |built'| ensures built'[i] in widgets' && widgets'[built'[i]] == stack'[i] {
      if i < |built| {
        assert built'[i] == built[i] && stack'[i] == stack[i];
        assert built[i] != id;
      }
    }
  }

  class MainWindow {
    /** `_page_specs`. */
    var specs: map<string, PageSpec>
    /** `_page_widgets`: the widget built for each page so far. */
    var widgets: map<string, Widget>
    /** The widgets added to `_stack`, in the order they were added. */
    var stack: seq<Widget>
    /** `_stack`'s current widget. */
    var current: Widget?
    /** The page ids the drawer has a button for. */
    var drawerIds: set<string>
    /** The drawer's checked button. */
    var selected: Option<string>
    /** The page ids whose factory has been called, in call order. */
    ghost var built: seq<string>

    /**
      Every page is built at most once, the stack holds exactly the built
      widgets in build order, and the cache maps each built id to its widget.
    */
    ghost predicate Valid()
      reads this
    {
      Consistent(built, stack, widgets, specs, current)
    }

    /**
      `__init__`: takes the registry's pages in `list_pages` order and, when
      there is at least one, navigates to the first; with none, no page is built.
    */
    constructor(registry: PageRegistry)
      ensures Valid()
      ensures specs == SpecTable(registry.ListPages()) && drawerIds == Ids(registry.ListPages())
      ensures registry.pages == [] ==> stack == [] && current == null && selected == None
      ensures registry.pages != [] ==>
                var first := registry.ListPages()[0].page_id;
                && built == [first] && |stack| == 1 && current == stack[0] && current == widgets[first]
                && selected == Some(first)
    {
      var pages := registry.ListPages();
      specs := SpecTable(pages);
      widgets := map[];
      stack := [];
      current := null;
      drawerIds := Ids(pages);
      selected := None;
      built := [];
      new;
      if pages != [] {
        assert pages[0] in pages;
        var _ := NavigateTo(pages[0].page_id);
      } else {
        assert multiset(registry.pages) == multiset{};
      }
    }

    /**
      `_ensure_page`: the cached widget when there is one (the factory is not
      called and the stack does not grow); otherwise the spec's factory is
      called once, and its widget is cached and appended to the stack. An id
      with no spec is a KeyError.
    */
    method EnsurePage(id: string) returns (r: Result<Widget, string>)
      requires Valid()
      modifies this
      ensures Valid()
      ensures specs == old(specs) && drawerIds == old(drawerIds)
      ensures current == old(current) && selected == old(selected)
      ensures id in old(widgets) ==>
                r == Ok(old(widgets)[id])
                && widgets == old(widgets) && stack == old(stack) && built == old(built)
      ensures id !in old(widgets) && id !in specs ==>
                r == Err(id) && widgets == old(widgets) && stack == old(stack) && built == old(built)
      ensures id !in old(widgets) && id in specs ==>
                && r.Ok? && fresh(r.value) && r.value.factory == specs[id].factory
                && widgets == old(widgets)[id := r.value]
                && stack == old(stack) + [r.value]
                && built == old(built) + [id]
    {
      if id in widgets {
        return Ok(widgets[id]);
      }
      if id !in specs {
        return Err(id);
      }
      var widget := BuildPage(id);
      r := Ok(widget);
    }

    /** Calls the page's factory once and caches and stacks the new widget. */
    method BuildPage(id: string) returns (widget: Widget)
      requires Valid() && id !in widgets && id in specs
      modifies this
      ensures Valid()
      ensures specs == old(specs) && drawerIds == old(drawerIds)
      ensures current == old(current) && selected == old(selected)
      ensures fresh(widget) && widget.factory == specs[id].factory
      ensures widgets == old(widgets)[id := widget] && stack == old(stack) + [widget] && built == old(built) + [id]
    {
      widget := new Widget(id, specs[id].factory);
      ConsistentBuild(built, stack, widgets, specs, current, id, widget);
      widgets, stack, built := widgets[id := widget], stack + [widget], built + [id];
    }

    /**
      `navigate_to`: ensures the page, makes its widget current and checks its
      drawer button. An id with no spec raises before anything changes.
    */
    method NavigateTo(id: string) returns (r: Result<(), string>)
      requires Valid()
      modifies this
      ensures Valid()
      ensures specs == old(specs) && drawerIds == old(drawerIds)
      ensures r.Ok? <==> id in old(widgets) || id in specs
      ensures r.Ok? ==> id in widgets && current == widgets[id]
                        && selected == (if id in drawerIds then Some(id) else old(selected))
      ensures r.Ok? && id in old(widgets) ==>
                widgets == old(widgets) && stack == old(stack) && built == old(built)
      ensures r.Ok? && id !in old(widgets) ==>
                stack == old(stack) + [widgets[id]] && built == old(built) + [id]
      ensures r.Err? ==> r.error == id && widgets == old(widgets) && stack == old(stack)
                         && built == old(built) && current == old(current) && selected == old(selected)
    {
      var w := EnsurePage(id);
      if w.Err? {
        return Err(w.error);
      }
      current := w.value;
      if id in drawerIds {
        selected := Some(id);
      }
      return Ok(());
    }
  }
}
