/** The package object: the toggle command with its dependency gate and menu handling, the
    grammar rules that start the server automatically when a compatible file is opened, the
    routing of opened editors to the editor streams, the active-editor signal, and the filter
    that picks feature modules from a directory listing. The client manager, the dependency
    checker and the workspace are inputs; the streams are the sequences of values pushed. */
module Plugin {
  import opened Js
  import opened Text

  /** What the client manager reports: `isOn` and `isOff` (both can be false while a client
      is connecting). */
  datatype ManagerStatus = ManagerStatus(isOn: bool, isOff: bool)

  /** A call the package makes on the client manager. */
  datatype ManagerCall = ManagerConnect | ManagerDisconnect

  /** An entry of the package's disposable set. */
  datatype Disposable = MenuEntry(menu: nat) | GrammarWatch(editor: nat)

  /** A text editor: its identity, its grammar's name, its path and whether its buffer has a
      file. */
  datatype TextEditor = TextEditor(id: nat, grammar: string, path: string, hasFile: bool)

  /** An item of the active pane: an editor exposes its grammar (Some), other items do not. */
  datatype PaneItem = PaneItem(id: nat, grammar: Option<string>)

  /** A feature module found in a features directory, with the features it exports. */
  datatype Feature = Feature(name: string)
  datatype DirEntry = DirEntry(name: string, isDirectory: bool, exports: seq<Feature>)

  /** Grammars whose editors are C# editors. */
  predicate IsCSharpGrammar(name: string) {
    name == "C#" || name == "C# Script File"
  }

  /** Whether opening an editor with this grammar and path starts the server (when it is off):
      C# and C# script files, and JSON files named project.json. */
  function StartsServer(grammar: string, path: string): (r: bool)
    ensures r <==> IsCSharpGrammar(grammar) || (grammar == "JSON" && Basename(path) == "project.json")
  {
    if grammar == "C#" then true
    else if grammar == "JSON" then Basename(path) == "project.json"
    else grammar == "C# Script File"
  }

  /** A project.json file in any directory starts the server. */
  lemma ProjectJsonStartsServer(dir: string)
    ensures StartsServer("JSON", dir + "/project.json")
  {
    BasenameOfChild(dir, "project.json");
    assert dir + "/" + "project.json" == dir + "/project.json";
  }

  /** The value pushed into the active-editor signal for the new active pane item: the item
      itself when it is a C# editor, null otherwise. */
  function ActiveEditorFor(item: Option<PaneItem>): (r: Option<PaneItem>)
    ensures r.Some? <==> item.Some? && item.value.grammar.Some? && IsCSharpGrammar(item.value.grammar.value)
    ensures r.Some? ==> r == item
  {
    match item
    case Some(p) =>
      if p.grammar.Some? && IsCSharpGrammar(p.grammar.value) then item else None
    case None => None
  }

  /** A directory entry is a feature module when its name ends in ".js" and it is not a
      directory. */
  predicate IsFeatureFile(e: DirEntry) {
    EndsWith(e.name, ".js") && !e.isDirectory
  }

  /** The features exported by the feature modules of a listing, in listing order. */
  function LoadedFeatures(entries: seq<DirEntry>): (r: seq<Feature>)
    ensures forall f :: f in r <==> exists i :: 0 <= i < |entries| && IsFeatureFile(entries[i]) && f in entries[i].exports
    ensures (forall i :: 0 <= i < |entries| ==> !IsFeatureFile(entries[i])) ==> r == []
    decreases |entries|
  {
    if |entries| == 0 then []
    else
      var rest := LoadedFeatures(entries[1..]);
      assert forall i :: 1 <= i < |entries| ==> entries[1..][i - 1] == entries[i];
      if IsFeatureFile(entries[0]) then entries[0].exports + rest else rest
  }

  /** What one grammar detection does: how many menus it adds, whether it asks the client
      manager to connect, and the alerts it raises. */
  datatype GrammarEffect = GrammarEffect(menus: nat, connects: bool, alerts: seq<string>)

  /** The effect of `detectGrammar` (the auto-start setting, the manager's status, whether a
      menu exists, the grammar, the editor's path and the dependency errors are its inputs):
      the menu is added when the client is on without one, and a server-starting editor toggles
      the client when it is off, which connects and adds the menu, or alerts the dependency
      errors instead. */
  function DetectGrammarEffect(autoStart: bool, status: ManagerStatus, hasMenu: bool, grammar: string, path: string,
                               dependencyErrors: seq<string>): (r: GrammarEffect)
    ensures !autoStart ==> r == GrammarEffect(0, false, [])
    ensures r.connects <==> autoStart && status.isOff && StartsServer(grammar, path) && |dependencyErrors| == 0
    ensures r.alerts != [] ==> r.alerts == dependencyErrors && !r.connects
    ensures autoStart && status.isOff && StartsServer(grammar, path) ==> r.alerts == dependencyErrors
    ensures !(autoStart && status.isOff && StartsServer(grammar, path)) ==> r.alerts == [] && !r.connects
    ensures r.menus == (if autoStart && status.isOn && !hasMenu then 1 else 0) + (if r.connects then 1 else 0)
  {
    if !autoStart then GrammarEffect(0, false, [])
    else
      var menus := if status.isOn && !hasMenu then 1 else 0;
      var toggles :=
        if grammar == "C#" then status.isOff
        else if grammar == "JSON" then Basename(path) == "project.json" && status.isOff
        else if grammar == "C# Script File" then status.isOff
        else false;
      if !toggles then GrammarEffect(menus, false, [])
      else if |dependencyErrors| == 0 then GrammarEffect(menus + 1, true, [])
      else GrammarEffect(menus, false, dependencyErrors)
  }

  /** The disposable entries of `count` menus numbered from `first`. */
  function MenuEntries(first: nat, count: nat): set<Disposable>
    decreases count
  {
    if count == 0 then {} else MenuEntries(first, count - 1) + {MenuEntry(first + count - 1)}
  }

  /** The entries of `count` menus from `first` are exactly the menus numbered `first` up to
      but excluding `first + count`. */
  lemma {:induction false} MenuEntriesRange(first: nat, count: nat)
    ensures forall d :: d in MenuEntries(first, count) <==> d.MenuEntry? && first <= d.menu < first + count
    decreases count
  {
    if count > 0 {
      MenuEntriesRange(first, count - 1);
    }
  }

  class OmniSharpAtom {
    var features: seq<Feature>
    var menu: Option<nat>
    var nextMenu: nat
    var disposable: set<Disposable>
    var manager: seq<ManagerCall>
    var disposedMenus: seq<nat>
    var alerts: seq<string>
    var activeEditor: seq<Option<PaneItem>>
    var editors: seq<TextEditor>
    var configEditors: seq<TextEditor>

    /** Menus are numbered in the order they are added; every menu in the disposable set and the
        current menu have been added, and the current menu is still in the disposable set. */
    ghost predicate Valid()
      reads this
    {
      && (menu.Some? ==> menu.value < nextMenu && MenuEntry(menu.value) in disposable)
      && (forall d :: d in disposable && d.MenuEntry? ==> d.menu < nextMenu)
    }

    /** A new package object: no features, no menu, and the active-editor signal holding null. */
    constructor ()
      ensures Valid()
      ensures features == [] && menu == None && disposable == {} && manager == []
      ensures alerts == [] && activeEditor == [None] && editors == [] && configEditors == []
    {
      features, menu, nextMenu, disposable := [], None, 0, {};
      manager, disposedMenus, alerts := [], [], [];
      activeEditor, editors, configEditors := [None], [], [];
    }

    /** `toggleMenu`: adds the package menu and registers it for disposal. */
    method ToggleMenu()
      requires Valid()
      modifies this`menu, this`nextMenu, this`disposable
      ensures Valid()
      ensures menu == Some(old(nextMenu)) && nextMenu == old(nextMenu) + 1
      ensures disposable == old(disposable) + {MenuEntry(old(nextMenu))}
      ensures MenuEntry(old(nextMenu)) !in old(disposable)
    {
      menu := Some(nextMenu);
      disposable := disposable + {MenuEntry(nextMenu)};
      nextMenu := nextMenu + 1;
    }

    /** `toggle`: with dependency errors, one alert per error and nothing else; otherwise connect
        and add the menu when the client is off, or disconnect and remove the menu when it is on. */
    method Toggle(dependencyErrors: seq<string>, status: ManagerStatus)
      requires Valid()
      modifies this`menu, this`nextMenu, this`disposable, this`manager, this`disposedMenus, this`alerts
      ensures Valid()
      ensures |dependencyErrors| > 0 ==>
        && alerts == old(alerts) + dependencyErrors
        && manager == old(manager) && menu == old(menu) && disposable == old(disposable)
        && disposedMenus == old(disposedMenus)
      ensures |dependencyErrors| == 0 ==> alerts == old(alerts)
      ensures nextMenu == old(nextMenu) + (if |dependencyErrors| == 0 && status.isOff then 1 else 0)
      ensures |dependencyErrors| == 0 && status.isOff ==>
        && manager == old(manager) + [ManagerConnect]
        && menu == Some(old(nextMenu)) && disposable == old(disposable) + {MenuEntry(old(nextMenu))}
        && disposedMenus == old(disposedMenus)
      ensures |dependencyErrors| == 0 && !status.isOff && status.isOn ==>
        && manager == old(manager) + [ManagerDisconnect]
        && menu == None
        && disposable == old(disposable) - (if old(menu).Some? then {MenuEntry(old(menu).value)} else {})
        && disposedMenus == old(disposedMenus) + (if old(menu).Some? then [old(menu).value] else [])
      ensures |dependencyErrors| == 0 && !status.isOff && !status.isOn ==>
        manager == old(manager) && menu == old(menu) && disposable == old(disposable)
        && disposedMenus == old(disposedMenus)
    {
      if |dependencyErrors| == 0 {
        if status.isOff {
          manager := manager + [ManagerConnect];
          ToggleMenu();
        } else if status.isOn {
          manager := manager + [ManagerDisconnect];
          if menu.Some? {
            disposable := disposable - {MenuEntry(menu.value)};
            disposedMenus := disposedMenus + [menu.value];
            menu := None;
          }
        }
      } else {
        alerts := alerts + dependencyErrors;
      }
    }

    /** `detectGrammar`: when auto-start is enabled, adds the menu if the client is on without
        one, and toggles the client on when it is off and the editor starts the server. The
        whole new state is the effect `DetectGrammarEffect` describes. */
    method DetectGrammar(editor: TextEditor, grammar: string, autoStart: bool, dependencyErrors: seq<string>, status: ManagerStatus)
      requires Valid()
      modifies this`menu, this`nextMenu, this`disposable, this`manager, this`disposedMenus, this`alerts
      ensures Valid()
      ensures var g := DetectGrammarEffect(autoStart, status, old(menu).Some?, grammar, editor.path, dependencyErrors);
        && nextMenu == old(nextMenu) + g.menus
        && disposable == old(disposable) + MenuEntries(old(nextMenu), g.menus)
        && menu == (if g.menus == 0 then old(menu) else Some(old(nextMenu) + g.menus - 1))
        && manager == old(manager) + (if g.connects then [ManagerConnect] else [])
        && alerts == old(alerts) + g.alerts
        && disposedMenus == old(disposedMenus)
    {
      if !autoStart {
        return;
      }
      ghost var n0, d0 := nextMenu, disposable;
      var added: nat := 0;
      if status.isOn && menu.None? {
        ToggleMenu();
        added := 1;
      }
      assert nextMenu == n0 + added && disposable == d0 + MenuEntries(n0, added);
      var toggles := false;
      if grammar == "C#" {
        toggles := status.isOff;
      } else if grammar == "JSON" {
        toggles := Basename(editor.path) == "project.json" && status.isOff;
      } else if grammar == "C# Script File" {
        toggles := status.isOff;
      }
      assert toggles <==> status.isOff && StartsServer(grammar, editor.path);
      if toggles {
        Toggle(dependencyErrors, status);
        if |dependencyErrors| == 0 {
          assert MenuEntries(n0, added + 1) == MenuEntries(n0, added) + {MenuEntry(n0 + added)};
        }
      }
    }

    /** The `observeTextEditors` callback: C# editors go to the editor stream and JSON editors to
        the configuration stream; then the grammar is checked for auto-start and a grammar-change
        watch is registered. A C# editor whose buffer has no file makes the callback throw after
        the editor was pushed, so nothing else happens for it. */
    method OnTextEditorOpened(editor: TextEditor, autoStart: bool, dependencyErrors: seq<string>, status: ManagerStatus)
      returns (threw: bool)
      requires Valid()
      modifies this`editors, this`configEditors, this`menu, this`nextMenu, this`disposable, this`manager,
        this`disposedMenus, this`alerts
      ensures Valid()
      ensures threw <==> IsCSharpGrammar(editor.grammar) && !editor.hasFile
      ensures editors == old(editors) + (if IsCSharpGrammar(editor.grammar) then [editor] else [])
      ensures configEditors == old(configEditors) + (if editor.grammar == "JSON" then [editor] else [])
      ensures threw ==>
        && menu == old(menu) && nextMenu == old(nextMenu) && disposable == old(disposable)
        && manager == old(manager) && disposedMenus == old(disposedMenus) && alerts == old(alerts)
      ensures !threw ==>
        var g := DetectGrammarEffect(autoStart, status, old(menu).Some?, editor.grammar, editor.path, dependencyErrors);
        && nextMenu == old(nextMenu) + g.menus
        && disposable == old(disposable) + MenuEntries(old(nextMenu), g.menus) + {GrammarWatch(editor.id)}
        && menu == (if g.menus == 0 then old(menu) else Some(old(nextMenu) + g.menus - 1))
        && manager == old(manager) + (if g.connects then [ManagerConnect] else [])
        && alerts == old(alerts) + g.alerts
        && disposedMenus == old(disposedMenus)
    {
      threw := false;
      if IsCSharpGrammar(editor.grammar) {
        editors := editors + [editor];
        if !editor.hasFile {
          return true;
        }
      } else if editor.grammar == "JSON" {
        configEditors := configEditors + [editor];
      }
      DetectGrammar(editor, editor.grammar, autoStart, dependencyErrors, status);
      disposable := disposable + {GrammarWatch(editor.id)};
    }

    /** The `observeActivePaneItem` callback of `subscribeToEvents`. */
    method OnActivePaneItem(item: Option<PaneItem>)
      modifies this`activeEditor
      ensures activeEditor == old(activeEditor) + [ActiveEditorFor(item)]
    {
      if item.Some? && item.value.grammar.Some? {
        var name := item.value.grammar.value;
        if name == "C#" || name == "C# Script File" {
          activeEditor := activeEditor + [item];
          return;
        }
      }
      activeEditor := activeEditor + [None];
    }

    /** `loadFeatures` and `loadAtomFeatures`: the features exported by the feature modules of a
        directory listing are appended to the features already loaded. */
    method LoadFeatures(entries: seq<DirEntry>)
      modifies this`features
      ensures features == old(features) + LoadedFeatures(entries)
    {
      features := features + LoadedFeatures(entries);
    }
  }
}
