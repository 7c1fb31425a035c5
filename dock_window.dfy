/** The dock window: a panel at the bottom of the workspace that shows one of several panes.
    It keeps two fields, whether the dock is visible and which pane is selected, keeps the
    workspace panel's visibility in step with them, and renders a toolbar of pane buttons
    above the selected pane. Rendering is modelled as the element tree it would produce. */
module Dock {
  import opened Js
  import opened Text

  /** Options of a pane in the dock. */
  datatype PaneOptions = PaneOptions(priority: Option<int>, closeable: bool)

  /** A pane the dock can show: its id, its button title, the view it renders and that view's
      properties. */
  datatype DockPane = DockPane(id: string, title: string, view: string, props: Record, options: PaneOptions)

  /** A child of a pane button: its title text, or the icon that closes the pane. */
  datatype ButtonChild = TitleText(title: string) | CloseIcon(pane: string)

  /** A pane button as rendered. */
  datatype ButtonElement = ButtonElement(className: string, key: string, children: seq<ButtonChild>)

  /** The elements the dock renders. */
  datatype Element =
    | HiddenPlaceholder                                      // a span with display: none
    | EmptySpan                                              // no pane matches the selection
    | PaneView(view: string, props: Record)                  // the selected pane's view
    | Toolbar(selected: string, panes: seq<DockPane>, content: Element)

  /** Calls the dock makes on the workspace panel. */
  datatype PanelCall = ShowCall | HideCall

  /** Workspace side effects of the dock: re-activating the active pane when the dock hides,
      and the focus callback of `selectWindow`. */
  datatype Effect = ActivateWorkspacePane | FocusSelectedPane

  const DefaultSelection := "omni"

  /** Whether an element's class attribute lists a class name. */
  predicate HasClass(className: string, name: string) {
    name in Split(className, ' ')
  }

  /** The index of the first pane with the given id (`_.find(panes, {id: id})`). */
  function FindPane(panes: seq<DockPane>, id: string): (r: Option<nat>)
    ensures r.Some? ==> r.value < |panes| && panes[r.value].id == id
    ensures r.Some? ==> forall j :: 0 <= j < r.value ==> panes[j].id != id
    ensures r.None? ==> forall j :: 0 <= j < |panes| ==> panes[j].id != id
    decreases |panes|
  {
    if |panes| == 0 then None
    else if panes[0].id == id then Some(0)
    else match FindPane(panes[1..], id)
      case None => None
      case Some(k) => Some(k + 1)
  }

  /** The class of a pane button: "selected" for the selected pane, "closeable" for a pane
      that can be closed. */
  function ButtonClass(selected: string, id: string, closeable: bool): string {
    "btn btn-default btn-fix " + (if selected == id then "selected" else "") + " " + (if closeable then "closeable" else "")
  }

  /** The button's class lists "selected" exactly when its pane is the selected one, and
      "closeable" exactly when the pane can be closed. */
  lemma ButtonClassNames(selected: string, id: string, closeable: bool)
    ensures HasClass(ButtonClass(selected, id, closeable), "selected") <==> selected == id
    ensures HasClass(ButtonClass(selected, id, closeable), "closeable") <==> closeable
  {
    var a := if selected == id then "selected" else "";
    var b := if closeable then "closeable" else "";
    ButtonClassSpelled(selected, id, closeable);
    FiveClassParts("btn", "btn-default", "btn-fix", a, b);
    var parts := Split(ButtonClass(selected, id, closeable), ' ');
    assert parts == ["btn", "btn-default", "btn-fix", a, b];
    assert "selected" in parts <==> a == "selected";
    assert "closeable" in parts <==> b == "closeable";
  }

  lemma ButtonClassSpelled(selected: string, id: string, closeable: bool)
    ensures ButtonClass(selected, id, closeable) ==
      "btn" + [' '] + "btn-default" + [' '] + "btn-fix" + [' '] + (if selected == id then "selected" else "")
      + [' '] + (if closeable then "closeable" else "")
  {
    assert "btn btn-default btn-fix " == "btn" + [' '] + "btn-default" + [' '] + "btn-fix" + [' '];
  }

  /** Splitting a class attribute of five space-free parts gives back the parts. */
  lemma FiveClassParts(p0: string, p1: string, p2: string, p3: string, p4: string)
    requires ' ' !in p0 && ' ' !in p1 && ' ' !in p2 && ' ' !in p3 && ' ' !in p4
    ensures Split(p0 + [' '] + p1 + [' '] + p2 + [' '] + p3 + [' '] + p4, ' ') == [p0, p1, p2, p3, p4]
  {
    var s3 := p3 + [' '] + p4;
    var s2 := p2 + [' '] + s3;
    var s1 := p1 + [' '] + s2;
    assert p0 + [' '] + p1 + [' '] + p2 + [' '] + p3 + [' '] + p4 == p0 + [' '] + s1;
    SplitNoSeparator(p4, ' ');
    LeadingClass(p3, p4);
    LeadingClass(p2, s3);
    LeadingClass(p1, s2);
    LeadingClass(p0, s1);
  }

  /** A space-free class followed by a space and more classes splits off as the first class. */
  lemma LeadingClass(head: string, rest: string)
    requires ' ' !in head
    ensures Split(head + [' '] + rest, ' ') == [head] + Split(rest, ' ')
  {
    SplitConcat(head, rest, ' ');
    SplitNoSeparator(head, ' ');
  }

  /** The button of a pane (`DockWindows.button`): its title, then a close icon when the pane
      is closeable; keyed by the pane's id. */
  function Button(selected: string, pane: DockPane): (r: ButtonElement)
    ensures r.key == pane.id
    ensures |r.children| == (if pane.options.closeable then 2 else 1)
    ensures r.children[0] == TitleText(pane.title)
    ensures CloseIcon(pane.id) in r.children <==> pane.options.closeable
    ensures HasClass(r.className, "selected") <==> selected == pane.id
    ensures HasClass(r.className, "closeable") <==> pane.options.closeable
  {
    ButtonClassNames(selected, pane.id, pane.options.closeable);
    var children := [TitleText(pane.title)] + (if pane.options.closeable then [CloseIcon(pane.id)] else []);
    ButtonElement(ButtonClass(selected, pane.id, pane.options.closeable), pane.id, children)
  }

  /** Atom's workspace panel: `show` and `hide` set its visibility. */
  class Panel {
    var visible: bool
    var calls: seq<PanelCall>

    constructor (visible: bool)
      ensures this.visible == visible && calls == []
    {
      this.visible := visible;
      calls := [];
    }

    method Show()
      modifies this
      ensures visible && calls == old(calls) + [ShowCall]
    {
      visible := true;
      calls := calls + [ShowCall];
    }

    method Hide()
      modifies this
      ensures !visible && calls == old(calls) + [HideCall]
    {
      visible := false;
      calls := calls + [HideCall];
    }
  }

  class DockWindow {
    const panel: Panel
    const panes: seq<DockPane>
    var selected: string
    var visible: bool
    var effects: seq<Effect>

    /** A new dock: hidden, with the output pane selected. */
    constructor (panel: Panel, panes: seq<DockPane>)
      ensures this.panel == panel && this.panes == panes
      ensures selected == DefaultSelection && !visible && effects == []
    {
      this.panel := panel;
      this.panes := panes;
      selected := DefaultSelection;
      visible := false;
      effects := [];
    }

    /** `isSelected`: the class of the shown pane. It tests only that some pane is selected;
        the key is not compared with the selection. */
    function IsSelected(key: string): (r: string)
      reads this
      ensures r == "" <==> selected == ""
      ensures selected != "" ==> HasClass(r, "omnisharp-atom-output") && HasClass(r, "selected")
    {
      if selected != "" then
        var r := "omnisharp-atom-output " + key + "-output selected";
        SelectedClassNames(key);
        r
      else ""
    }

    /** `getWindows`: the view of the first pane whose id is the selection, rendered with its own
        properties plus a class and a key; an empty span when no pane matches. The pane's stored
        properties are left as they were. */
    function GetWindows(): (r: Element)
      reads this
      ensures FindPane(panes, selected).None? <==> r == EmptySpan
      ensures FindPane(panes, selected).Some? ==>
        var p := panes[FindPane(panes, selected).value];
        && r.PaneView? && r.view == p.view
        && r.props.Keys == p.props.Keys + {"className", "key"}
        && r.props["className"] == Str(IsSelected(p.id) + " " + ToText(Or(Get(p.props, "className"), Str(""))))
        && r.props["key"] == Str(p.id)
        && forall k :: k in p.props && k != "className" && k != "key" ==> r.props[k] == p.props[k]
    {
      match FindPane(panes, selected)
      case None => EmptySpan
      case Some(i) =>
        var p := panes[i];
        var className := IsSelected(p.id) + " " + ToText(Or(Get(p.props, "className"), Str("")));
        PaneView(p.view, p.props["className" := Str(className)]["key" := Str(p.id)])
    }

    /** `render`: the hidden placeholder while the dock is not visible, otherwise the toolbar
        over the selected pane's view. */
    function Render(): (r: Element)
      reads this
      ensures !visible <==> r == HiddenPlaceholder
      ensures visible ==> r == Toolbar(selected, panes, GetWindows())
    {
      if !visible then HiddenPlaceholder else Toolbar(selected, panes, GetWindows())
    }

    /** `updateAtom`: calls the panel's show or hide only when its visibility differs from the
        dock's, then runs the callback (here: the focus callback, when given). */
    method UpdateAtom(focus: bool)
      modifies panel, this`effects
      ensures panel.visible == visible
      ensures panel.calls == old(panel.calls) +
        (if old(panel.visible) == visible then [] else if visible then [ShowCall] else [HideCall])
      ensures effects == old(effects) + (if focus then [FocusSelectedPane] else [])
    {
      if panel.visible != visible {
        if visible {
          panel.Show();
        } else {
          panel.Hide();
        }
      }
      if focus {
        effects := effects + [FocusSelectedPane];
      }
    }

    /** `showView`: shows the dock and brings the panel in step. */
    method ShowView()
      modifies panel, this`visible, this`effects
      ensures visible && panel.visible && effects == old(effects)
      ensures panel.calls == old(panel.calls) + (if old(panel.visible) then [] else [ShowCall])
    {
      visible := true;
      UpdateAtom(false);
    }

    /** `doShowView`: shows the dock without touching the panel. */
    method DoShowView()
      modifies this`visible
      ensures visible
    {
      visible := true;
    }

    /** `doHideView`: hides the dock and re-activates the workspace's active pane. */
    method DoHideView()
      modifies this`visible, this`effects
      ensures !visible && effects == old(effects) + [ActivateWorkspacePane]
    {
      visible := false;
      effects := effects + [ActivateWorkspacePane];
    }

    /** `hideView`: hides the dock and brings the panel in step. */
    method HideView()
      modifies panel, this`visible, this`effects
      ensures !visible && !panel.visible
      ensures effects == old(effects) + [ActivateWorkspacePane]
      ensures panel.calls == old(panel.calls) + (if old(panel.visible) then [HideCall] else [])
    {
      DoHideView();
      UpdateAtom(false);
    }

    /** `toggleView`: flips the dock's visibility and brings the panel in step. */
    method ToggleView()
      modifies panel, this`visible, this`effects
      ensures visible == !old(visible) && panel.visible == visible
      ensures effects == old(effects) + (if old(visible) then [ActivateWorkspacePane] else [])
      ensures panel.calls == old(panel.calls) +
        (if old(panel.visible) == visible then [] else if visible then [ShowCall] else [HideCall])
    {
      if visible {
        DoHideView();
      } else {
        DoShowView();
      }
      UpdateAtom(false);
    }

    /** `selectWindow`: shows the dock on the given pane and asks for that pane to be focused. */
    method SelectWindow(s: string)
      modifies panel, this`visible, this`selected, this`effects
      ensures visible && selected == s && panel.visible
      ensures effects == old(effects) + [FocusSelectedPane]
      ensures panel.calls == old(panel.calls) + (if old(panel.visible) then [] else [ShowCall])
    {
      if !visible {
        DoShowView();
      }
      selected := s;
      UpdateAtom(true);
    }

    /** `toggleWindow`: hides the dock when it already shows the given pane, otherwise selects
        that pane. */
    method ToggleWindow(s: string)
      modifies panel, this`visible, this`selected, this`effects
      ensures old(visible) && old(selected) == s ==>
        !visible && selected == old(selected) && effects == old(effects) + [ActivateWorkspacePane]
      ensures !(old(visible) && old(selected) == s) ==>
        visible && selected == s && effects == old(effects) + [FocusSelectedPane]
      ensures panel.visible == visible
      ensures panel.calls == old(panel.calls) +
        (if old(panel.visible) == visible then [] else if visible then [ShowCall] else [HideCall])
    {
      if visible && selected == s {
        HideView();
        return;
      }
      SelectWindow(s);
    }
  }

  /** The class produced for a selected pane lists the two classes the focus callback's query
      (`.omnisharp-atom-output.selected`) looks for. */
  lemma SelectedClassNames(key: string)
    ensures HasClass("omnisharp-atom-output " + key + "-output selected", "omnisharp-atom-output")
    ensures HasClass("omnisharp-atom-output " + key + "-output selected", "selected")
  {
    var head, mid, last := "omnisharp-atom-output", key + "-output", "selected";
    assert "omnisharp-atom-output " + key + "-output selected" == head + [' '] + mid + [' '] + last;
    OuterClassNames(head, mid, last);
  }

  /** A class attribute of three space-separated parts lists its first and its last part. */
  lemma OuterClassNames(head: string, mid: string, last: string)
    requires ' ' !in head && ' ' !in last
    ensures HasClass(head + [' '] + mid + [' '] + last, head)
    ensures HasClass(head + [' '] + mid + [' '] + last, last)
  {
    var rest := mid + [' '] + last;
    assert head + [' '] + mid + [' '] + last == head + [' '] + rest;
    SplitConcat(head, rest, ' ');
    SplitConcat(mid, last, ' ');
    SplitNoSeparator(head, ' ');
    SplitNoSeparator(last, ' ');
    var rr := Split(rest, ' ');
    assert rr[|rr| - 1] == last;
  }

  /** When the dock is visible on a selected pane that exists, the rendered view carries both
      classes the focus callback's query looks for, so the query finds it. */
  lemma FocusFindsRenderedPane(d: DockWindow)
    requires d.visible && d.selected != "" && FindPane(d.panes, d.selected).Some?
    ensures d.Render().Toolbar? && d.Render().content.PaneView?
    ensures var props := d.Render().content.props;
      "className" in props && props["className"].Str?
      && HasClass(props["className"].s, "omnisharp-atom-output")
      && HasClass(props["className"].s, "selected")
  {
    var p := d.panes[FindPane(d.panes, d.selected).value];
    var a := d.IsSelected(p.id);
    var b := ToText(Or(Get(p.props, "className"), Str("")));
    SplitConcat(a, b, ' ');
    assert a + " " + b == a + [' '] + b;
  }
}
