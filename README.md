# Scope to this — a Dafny model

A model of the scope controller of the "Scope to this" Obsidian plugin. The plugin
scopes the file explorer to one folder. It wraps the explorer's
`getSortedFolderItems` so that a listing of the vault root shows only the scoped
folder's item. Its folder context menu toggles the scope on and off. It keeps a
single `id="scope-target"` attribute on the scoped folder's cover element, and it
persists the scope path.

The model has two modules:

- `Scope` (scope.dfy) holds the pure decisions as functions with lemmas:
  - the merge of persisted data into `DEFAULT_SETTINGS`;
  - the redirect closure;
  - the file-menu entry;
  - how `setPath` moves the marker over the id attributes of the live items, with
    the marker invariant over any sequence of `setPath` calls.
- `ScopePlugin` (plugin.dfy) holds the objects that change in place:
  - `Plugin`, with its `settings` and a ghost copy of what was last saved;
  - `FileExplorer`, with its `fileItems` map and its extra properties (the patch
    flag is the property named by the patch id);
  - `ExplorerPrototype`, shared by all views, where the redirect is installed;
  - `FileItem` and `CoverElement`, with the optional `id` attribute.

  `SetPath` and `PatchFileExplorer` are proved against the functions of
  `Scope`. `Onunload` states its effect on the explorer's fields directly.

The two scope states are Unscoped (`scopePath == ""`) and Scoped(p). Only
`SetPath` moves between them. `around` with `dedupe` is modelled as a set of keys on
the prototype: installing under a key that is already present replaces the
wrapper rather than stacking it, so each key means at most one active redirect.
The workspace lookup `getFileExplorer()` becomes a parameter `explorer:
FileExplorer?` of each method, where `null` means no explorer is open. `saveData`
becomes the ghost field `persisted`. `Plugin.Valid()` states that reloading what is
persisted gives back the live settings; the constructor establishes it and every
method keeps it.

The patch flag is set after the `setPath` refresh, which itself runs after the
wrapper is installed (src/main.ts:74-75).

## Model

| member | source | states |
|---|---|---|
| Scope.LoadSettings | src/main.ts:9 | each field of the loaded settings is the persisted field when present and the default otherwise; with nothing persisted, the defaults |
| Scope.FirstLoadIsUnscoped | src/main.ts:105-108 | a first load with nothing persisted is unscoped (`""`), with patch id `obsidian-scope-to-this-patch` |
| Scope.Persist | src/main.ts:95 | a save writes every field of the settings |
| Scope.LoadAfterSave | src/main.ts:95 | loading what a save wrote gives back exactly the saved settings |
| Scope.Redirect | src/main.ts:60-67 | the listing is substituted, and the original is not called, exactly when the folder is the root and an item is live at the scope path; the substitute is the one-element list of that item |
| Scope.NonRootIsOriginal | src/main.ts:62-66 | a folder that is not the root always gets the original listing |
| Scope.StaleScopeFallsBack | src/main.ts:62-66 | once the scoped folder's item is gone, the root listing is the original one (the stale path is tolerated) |
| Scope.RedirectReadsOnlyTarget | src/main.ts:63-64 | the decision depends on the item map only through the entry at the scope path |
| Scope.FileMenuItem | src/main.ts:18-28 | a file gets no entry; a folder other than the scoped one gets "Scope to this"/"pin", whose click scopes to its path; the scoped folder gets "Unscope from this"/"pin-off", whose click sets `""` |
| Scope.MenuToggleRoundTrip | src/main.ts:20-28 | for a folder with a non-empty path, when the scope starts either unscoped (`""`) or at that folder's own path, two clicks on its entry return to the starting scope and the entry's title alternates (starting from another folder's scope, two clicks end unscoped) |
| Scope.MoveMarker | src/main.ts:89-94 | the item map keeps its paths; the new target's element carries `scope-target`, the old target's element (if different) has no id, and every other element keeps its attribute |
| Scope.MoveMarkerEstablishesExact | src/main.ts:89-94 | if the marker was at most on the old target, after the move it is on the new target's live element and nowhere else |
| Scope.MoveMarkerIdempotent | src/main.ts:87-96 | setting the same path twice leaves the same marks as setting it once |
| Scope.RefreshKeepsMarks | src/main.ts:74 | `setPath(getPath())` changes no mark when the marker is already exactly on the current target |
| Scope.MarkerAfterAnyRun | src/main.ts:87-96 | starting from marks where the marker is at most on the current scope path's element, after any sequence of `setPath` calls the marker is at most on the final scope path's element, and exactly there when at least one call was made |
| ScopePlugin.Plugin.GetPatchId | src/main.ts:79-81 | the patch id read from the settings is the one a reload of the persisted data gives |
| ScopePlugin.Plugin.GetPath | src/main.ts:83-85 | the scope path read from the settings is the one a reload of the persisted data gives |
| ScopePlugin.Plugin.Load | src/main.ts:7-9 | onload sets the settings to the defaults merged with the persisted data |
| ScopePlugin.Plugin.SetPath | src/main.ts:87-96 | the scope path becomes `newPath` and the patch id is kept; the persisted settings are the new settings; the new marks are `MoveMarker` of the old ones; only the two target elements may change; the marker invariant carries over to `newPath` |
| ScopePlugin.Plugin.PatchFileExplorer | src/main.ts:47-77 | with no explorer, the error "Could not find file explorer" and nothing changes; with the flag already set, nothing changes; otherwise the patch id joins the prototype's redirect keys and the explorer's flags, the marker is refreshed for the current path, and the settings are persisted unchanged |
| ScopePlugin.Plugin.Onunload | src/main.ts:35-40 | with no explorer, nothing changes; otherwise only the patch flag is removed; the installed redirect keys, the items and the scope path stay |
| ScopePlugin.Plugin.GetSortedFolderItems | src/main.ts:56-67 | while no redirect is installed under the patch id, the original listing; once one is, the one-element list of the item at the scope path for a root folder when that item is live, and the original listing otherwise |
| ScopePlugin.PatchTwice | src/main.ts:52-75 | for any plugin and any valid explorer, two patch calls in a row both succeed; the patch id is added once to the explorer's flags and, unless the flag was already set, once to the prototype's redirect keys; the settings and items stay; the second call leaves the marks and the persisted settings as the first left them |
| ScopePlugin.InstallTwiceScenario | src/main.ts:52-75 | in one fixed run (one "/Projects" item, nothing persisted, an empty prototype), two patch calls both return Done and leave exactly the one redirect key `obsidian-scope-to-this-patch` |
| ScopePlugin.ProjectsScenario | src/main.ts:60-67 | after scoping to a live "/Projects", its element is marked, the "/Notes" element is not, and the root lists only "/Projects"; after the folder is deleted, the root listing is the original and `getPath` still gives "/Projects" |

## Left out

- Workspace events are not modelled: `onLayoutReady`, `layout-change` and the `file-menu` registration. `PatchFileExplorer` and the menu entry are called directly.
- `getFileExplorer` and its `getLeavesOfType` lookup are not modelled. The explorer becomes a parameter of each method.
- `requestSort` and all rendering are host calls with no visible effect here, so they are left out.
- `loadData`/`saveData` are asynchronous I/O. They are modelled as a parameter of the constructor and a ghost snapshot. The `await` points, and the events that could run during them, are not modelled: each method runs to completion as one step.
- The unregistration of the `around` wrapper is not modelled. `plugin.register` hands it to the host, and the host runs it when the plugin unloads. So after `Onunload` the patch id is still among the prototype's redirect keys, and the statement that an unloaded plugin leaves the original listing is not proved.
- The internals of `monkey-around` (`around`, `dedupe`, prototype mutation) are not modelled. They are replaced by a set of keys on the shared prototype.
- Of the DOM, only the `id` attribute of each item's cover element is modelled. `FileExplorer.Valid()` assumes, as the host guarantees, that distinct paths have distinct cover elements.
- `instanceof TFolder` and `isRoot()` are not modelled as host checks. They become the tags `TFolder` and `Folder.isRoot` on the input.
- `fileItems` is modelled as a map of the explorer's own entries. JavaScript lookups that would find inherited object properties are not modelled, and neither is the host creating, deleting or re-keying items (a scenario assigns the map directly). If the host left a marked element under a path other than the scope path, the single-marker property would fail in the source as well: `setPath` clears only the current target's id, so `MoveMarker(map["/B" := Some("scope-target"), "/C" := None], "/A", "/C")` leaves both "/B" and "/C" marked. This is why `MarkerAfterAnyRun` requires the marker to start at most on the scope path.
- The `menu.addSeparator()` call placed before each folder's entry (src/main.ts:19) is not modelled. `FileMenuItem` gives only the entry itself.
- Persisted data holding fields other than `patchId` and `scopePath`, or values that are not strings, is not modelled.
