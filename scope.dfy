/**
 * The decisions of the "scope to this" file-explorer extension, as pure
 * functions: which settings a load yields, whether the root listing is
 * redirected, which context-menu entry a folder gets, and how the single
 * "scope-target" marker moves between cover elements.
 */
module Scope {

  datatype Option<T> = None | Some(value: T)

  /** The id attribute that marks the cover element of the scoped folder. */
  const ScopeTargetId: string := "scope-target"

  // ---------------------------------------------------------------------------
  // Settings and their persistence
  // ---------------------------------------------------------------------------

  /** The plugin's settings: the dedupe key of its patch and the scoped folder ("" = unscoped). */
  datatype Settings = Settings(patchId: string, scopePath: string)

  /** The defaults that a load merges the persisted data into. */
  const DefaultSettings: Settings := Settings("obsidian-scope-to-this-patch", "")

  /** The persisted object as read back: each field may be missing. */
  datatype StoredSettings = StoredSettings(patchId: Option<string>, scopePath: Option<string>)

  /** What a save writes: every field of the settings. */
  function Persist(s: Settings): (stored: Option<StoredSettings>)
    ensures stored.Some? && stored.value.patchId.Some? && stored.value.scopePath.Some?
  {
    Some(StoredSettings(Some(s.patchId), Some(s.scopePath)))
  }

  /** A field of the persisted object when it is present, the default otherwise. */
  function Field(stored: Option<string>, fallback: string): string
  {
    if stored.Some? then stored.value else fallback
  }

  /**
   * The settings a load produces: the defaults, overridden by every field the
   * persisted object holds; nothing persisted leaves the defaults.
   */
  function LoadSettings(stored: Option<StoredSettings>): (s: Settings)
    ensures stored.None? ==> s == DefaultSettings
    ensures stored.Some? && stored.value.patchId.Some? ==> s.patchId == stored.value.patchId.value
    ensures stored.Some? && stored.value.scopePath.Some? ==> s.scopePath == stored.value.scopePath.value
    ensures (stored.None? || stored.value.patchId.None?) ==> s.patchId == DefaultSettings.patchId
    ensures (stored.None? || stored.value.scopePath.None?) ==> s.scopePath == DefaultSettings.scopePath
  {
    match stored
    case None => DefaultSettings
    case Some(data) =>
      Settings(Field(data.patchId, DefaultSettings.patchId), Field(data.scopePath, DefaultSettings.scopePath))
  }

  /** First load with nothing persisted: unscoped, with the fixed patch id. */
  lemma FirstLoadIsUnscoped()
    ensures LoadSettings(None) == Settings("obsidian-scope-to-this-patch", "")
    ensures LoadSettings(None).scopePath == ""
  {
  }

  /** Loading what a save wrote gives back exactly the saved settings. */
  lemma LoadAfterSave(s: Settings)
    ensures LoadSettings(Persist(s)) == s
  {
  }

  // ---------------------------------------------------------------------------
  // The redirect around getSortedFolderItems
  // ---------------------------------------------------------------------------

  /** A folder as passed to the listing function; `isRoot` is the synthetic root. */
  datatype Folder = Folder(path: string, isRoot: bool)

  /** What the redirect does: answer by itself, or hand the call to the original listing. */
  datatype Route<T> = Substitute(items: seq<T>) | Original

  /**
   * The redirect decision: for the root folder with a live item at the scope
   * path, the listing is that one item and the original is not called;
   * for anything else, the original listing answers.
   */
  function Redirect<T>(folder: Folder, fileItems: map<string, T>, scopePath: string): (r: Route<T>)
    ensures r.Substitute? <==> folder.isRoot && scopePath in fileItems
    ensures r.Substitute? ==> |r.items| == 1 && r.items[0] == fileItems[scopePath]
  {
    if folder.isRoot && scopePath in fileItems then Substitute([fileItems[scopePath]]) else Original
  }

  /** The listing the caller receives, given what the original function would return. */
  function Listing<T>(route: Route<T>, original: seq<T>): seq<T>
  {
    match route
    case Substitute(items) => items
    case Original => original
  }

  /** Only the entry at the scope path matters: the rest of the item map never changes the decision. */
  lemma RedirectReadsOnlyTarget<T>(folder: Folder, m1: map<string, T>, m2: map<string, T>, scopePath: string)
    requires scopePath in m1 <==> scopePath in m2
    requires scopePath in m1 ==> m1[scopePath] == m2[scopePath]
    ensures Redirect(folder, m1, scopePath) == Redirect(folder, m2, scopePath)
  {
  }

  /** A scoped folder that was deleted leaves a dangling path; the root listing falls back to the original. */
  lemma StaleScopeFallsBack<T>(folder: Folder, fileItems: map<string, T>, scopePath: string, original: seq<T>)
    ensures Redirect(folder, fileItems - {scopePath}, scopePath) == Original
    ensures Listing(Redirect(folder, fileItems - {scopePath}, scopePath), original) == original
  {
  }

  /** Listings of folders other than the root are never redirected. */
  lemma NonRootIsOriginal<T>(folder: Folder, fileItems: map<string, T>, scopePath: string, original: seq<T>)
    requires !folder.isRoot
    ensures Listing(Redirect(folder, fileItems, scopePath), original) == original
  {
  }

  // ---------------------------------------------------------------------------
  // The file-menu entry
  // ---------------------------------------------------------------------------

  /** A file-tree entry as the menu sees it; only folders get the scope entry. */
  datatype AbstractFile = TFile(path: string) | TFolder(folder: Folder)
  {
    function Path(): string
    {
      match this
      case TFile(p) => p
      case TFolder(f) => f.path
    }
  }

  /** A context-menu entry: its title, its icon and the scope path a click sets. */
  datatype MenuItem = MenuItem(title: string, icon: string, clickPath: string)

  /**
   * The entry added to a file's context menu: none for a file; for a folder
   * other than the scoped one, "Scope to this" (pin), which scopes to it; for
   * the scoped folder, "Unscope from this" (pin-off), which clears the scope.
   */
  function FileMenuItem(file: AbstractFile, scopePath: string): (item: Option<MenuItem>)
    ensures item.None? <==> file.TFile?
    ensures item.Some? && file.Path() != scopePath ==> item.value == MenuItem("Scope to this", "pin", file.Path())
    ensures item.Some? && file.Path() == scopePath ==> item.value == MenuItem("Unscope from this", "pin-off", "")
  {
    match file
    case TFile(_) => None
    case TFolder(f) =>
      if f.path != scopePath then Some(MenuItem("Scope to this", "pin", f.path))
      else Some(MenuItem("Unscope from this", "pin-off", ""))
  }

  /**
   * Clicking a folder's entry twice returns to where it started, from either
   * state of that folder (unscoped, or scoped to it), and the entry's title
   * alternates; from another folder's scope, two clicks end unscoped. A folder
   * whose path is "" would stay on "Unscope from this".
   */
  lemma MenuToggleRoundTrip(f: Folder, scopePath: string)
    requires f.path != ""
    ensures var first := FileMenuItem(TFolder(f), scopePath).value;
            var second := FileMenuItem(TFolder(f), first.clickPath).value;
            (scopePath == "" || scopePath == f.path) ==> second.clickPath == scopePath && first.title != second.title
    ensures var first := FileMenuItem(TFolder(f), scopePath).value;
            var second := FileMenuItem(TFolder(f), first.clickPath).value;
            (scopePath != "" && scopePath != f.path) ==> second.clickPath == ""
  {
  }

  // ---------------------------------------------------------------------------
  // The scope-target marker
  // ---------------------------------------------------------------------------

  /**
   * The id attribute of the cover element of every live item, keyed by path
   * (None: no id attribute).
   */
  type Marks = map<string, Option<string>>

  /**
   * What setPath does to the id attributes: the cover element of the current
   * target loses its id, then the cover element of the new target gets the
   * scope-target id; every other element keeps its attribute.
   */
  function MoveMarker(ids: Marks, current: string, next: string): (r: Marks)
    ensures r.Keys == ids.Keys
    ensures next in ids ==> r[next] == Some(ScopeTargetId)
    ensures current in ids && current != next ==> r[current] == None
    ensures forall p :: p in ids && p != current && p != next ==> r[p] == ids[p]
  {
    var cleared := if current in ids then ids[current := None] else ids;
    if next in cleared then cleared[next := Some(ScopeTargetId)] else cleared
  }

  /** At most one element carries the marker, and only the one of the scoped path. */
  ghost predicate MarkedAtMost(ids: Marks, scopePath: string)
  {
    forall p :: p in ids && ids[p] == Some(ScopeTargetId) ==> p == scopePath
  }

  /** The marker sits exactly on the scoped path's element, when it is live, and nowhere else. */
  ghost predicate MarkedExactly(ids: Marks, scopePath: string)
  {
    forall p :: p in ids ==> (ids[p] == Some(ScopeTargetId) <==> p == scopePath)
  }

  /** One setPath restores the exact marker for the new path from any state where the marker was at most on the old one. */
  lemma MoveMarkerEstablishesExact(ids: Marks, current: string, next: string)
    requires MarkedAtMost(ids, current)
    ensures MarkedExactly(MoveMarker(ids, current, next), next)
    ensures MarkedAtMost(MoveMarker(ids, current, next), next)
  {
  }

  /** Setting the same path twice is the same as setting it once. */
  lemma MoveMarkerIdempotent(ids: Marks, current: string, next: string)
    ensures MoveMarker(MoveMarker(ids, current, next), next, next) == MoveMarker(ids, current, next)
  {
  }

  /** Refreshing the current path (setPath(getPath())) changes nothing when the marker is already exact. */
  lemma RefreshKeepsMarks(ids: Marks, current: string)
    requires MarkedExactly(ids, current)
    ensures MoveMarker(ids, current, current) == ids
  {
  }

  /** The marks after a sequence of setPath calls starting from scope path `current`. */
  function MoveAlong(ids: Marks, current: string, paths: seq<string>): Marks
    decreases |paths|
  {
    if paths == [] then ids else MoveAlong(MoveMarker(ids, current, paths[0]), paths[0], paths[1..])
  }

  /** The scope path after a sequence of setPath calls. */
  function FinalPath(current: string, paths: seq<string>): string
  {
    if paths == [] then current else paths[|paths| - 1]
  }

  /**
   * Marker invariant over any run: if the marker started at most on the scoped
   * path, then after any sequence of setPath calls it is still at most on the
   * scoped path, and exactly there once at least one call was made.
   */
  lemma {:induction false} MarkerAfterAnyRun(ids: Marks, current: string, paths: seq<string>)
    requires MarkedAtMost(ids, current)
    ensures MarkedAtMost(MoveAlong(ids, current, paths), FinalPath(current, paths))
    ensures paths != [] ==> MarkedExactly(MoveAlong(ids, current, paths), FinalPath(current, paths))
    decreases |paths|
  {
    if paths != [] {
      var step := MoveMarker(ids, current, paths[0]);
      MoveMarkerEstablishesExact(ids, current, paths[0]);
      MarkerAfterAnyRun(step, paths[0], paths[1..]);
      if |paths| > 1 {
        assert FinalPath(paths[0], paths[1..]) == paths[1..][|paths| - 2] == FinalPath(current, paths);
      }
    }
  }
}
