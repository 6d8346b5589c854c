/**
 * The plugin object and the host objects it changes in place: the file
 * explorer view (its item map and its extra properties), the view's shared
 * prototype (where the keyed redirect is installed) and the cover element of
 * every item (with its optional id attribute).
 */
module ScopePlugin {
  import opened Scope

  /** The rendered element of a file-tree item; only its id attribute is modelled. */
  class CoverElement {
    var id: Option<string>

    constructor ()
      ensures id == None
    {
      id := None;
    }
  }

  /** A live item of the file explorer, with its cover element. */
  class FileItem {
    const coverEl: CoverElement

    constructor ()
      ensures fresh(coverEl) && coverEl.id == None
    {
      coverEl := new CoverElement();
    }
  }

  /**
   * The prototype shared by every file explorer view. `redirects` holds the
   * dedupe keys of the redirects wrapped around its listing function: wrapping
   * again with a key that is already there replaces rather than stacks, so
   * each key stands for at most one active redirect.
   */
  class ExplorerPrototype {
    var redirects: set<string>

    constructor ()
      ensures redirects == {}
    {
      redirects := {};
    }
  }

  /** Distinct paths have distinct cover elements. */
  ghost predicate DistinctCovers(items: map<string, FileItem>)
  {
    forall p, q :: p in items && q in items && p != q ==> items[p].coverEl != items[q].coverEl
  }

  /**
   * The live file explorer view: the map from path to live item, the names of
   * the extra properties that are set on it (the patch flag is the one named
   * by the patch id), and its prototype.
   */
  class FileExplorer {
    var fileItems: map<string, FileItem>
    var props: set<string>
    const proto: ExplorerPrototype

    /** Every item has its own cover element. */
    ghost predicate Valid()
      reads this
    {
      DistinctCovers(fileItems)
    }

    constructor (proto: ExplorerPrototype, items: map<string, FileItem>)
      requires DistinctCovers(items)
      ensures Valid()
      ensures this.proto == proto && fileItems == items && props == {}
    {
      this.proto := proto;
      fileItems := items;
      props := {};
    }

    /** The cover elements of those of `paths` that have a live item. */
    function CoversOf(paths: set<string>): set<CoverElement>
      reads this
    {
      set p | p in paths && p in fileItems :: fileItems[p].coverEl
    }

    /** Every cover element of the view. */
    function Covers(): set<CoverElement>
      reads this
    {
      set p | p in fileItems :: fileItems[p].coverEl
    }

    /** The id attribute of every live item's cover element, by path. */
    function Marks(): Marks
      reads this, Covers()
    {
      map p | p in fileItems :: fileItems[p].coverEl.id
    }
  }

  /** How an installation attempt ends; a failure carries the error's message. */
  datatype Outcome = Done | Failure(message: string)

  const NoExplorerMessage: string := "Could not find file explorer"

  /**
   * The plugin: its settings, and (ghost) what was last persisted. The file
   * explorer, which the plugin looks up in the host's workspace on every call,
   * is a parameter of each method (null: none is open).
   */
  class Plugin {
    var settings: Settings
    ghost var persisted: Option<StoredSettings>

    /** Reloading what is persisted would give the live settings back. */
    ghost predicate Valid()
      reads this
    {
      LoadSettings(persisted) == settings
    }

    /** onload: the defaults merged with whatever was persisted (None: nothing was). */
    constructor Load(stored: Option<StoredSettings>)
      ensures Valid()
      ensures settings == LoadSettings(stored) && persisted == stored
    {
      settings := LoadSettings(stored);
      persisted := stored;
    }

    /** getPatchID: the dedupe key of the patch, the one a reload of what is persisted would give. */
    function GetPatchId(): (id: string)
      reads this
      ensures Valid() ==> id == LoadSettings(persisted).patchId
    {
      settings.patchId
    }

    /** getPath: the scoped folder ("" = unscoped), the one a reload of what is persisted would give. */
    function GetPath(): (path: string)
      reads this
      ensures Valid() ==> path == LoadSettings(persisted).scopePath
    {
      settings.scopePath
    }

    /**
     * setPath: strip the id of the current target's cover element, scope to
     * `newPath`, mark the new target's cover element, persist the settings.
     * Only those two cover elements may change.
     */
    method SetPath(explorer: FileExplorer?, newPath: string)
      requires explorer != null ==> explorer.Valid()
      modifies this, if explorer == null then {} else explorer.CoversOf({settings.scopePath, newPath})
      ensures Valid()
      ensures settings == old(settings).(scopePath := newPath)
      ensures persisted == Persist(settings)
      ensures explorer != null ==>
        explorer.Marks() == MoveMarker(old(explorer.Marks()), old(settings.scopePath), newPath)
      ensures explorer != null && newPath in explorer.fileItems ==>
        explorer.fileItems[newPath].coverEl.id == Some(ScopeTargetId)
      ensures explorer != null && old(settings.scopePath) in explorer.fileItems && old(settings.scopePath) != newPath ==>
        explorer.fileItems[old(settings.scopePath)].coverEl.id == None
      ensures explorer != null ==> forall p :: p in explorer.fileItems && p != old(settings.scopePath) && p != newPath ==>
        explorer.fileItems[p].coverEl.id == old(explorer.fileItems[p].coverEl.id)
      ensures explorer != null && MarkedAtMost(old(explorer.Marks()), old(settings.scopePath)) ==>
        MarkedExactly(explorer.Marks(), newPath)
    {
      ghost var before := if explorer == null then map[] else explorer.Marks();
      var currentCoverEl: CoverElement? := null;
      var newCoverEl: CoverElement? := null;
      if explorer != null && GetPath() in explorer.fileItems {
        currentCoverEl := explorer.fileItems[GetPath()].coverEl;
      }
      if explorer != null && newPath in explorer.fileItems {
        newCoverEl := explorer.fileItems[newPath].coverEl;
      }
      ghost var current := GetPath();

      if currentCoverEl != null {
        currentCoverEl.id := None;
      }
      settings := settings.(scopePath := newPath);
      if newCoverEl != null {
        newCoverEl.id := Some(ScopeTargetId);
      }
      persisted := Persist(settings);
      LoadAfterSave(settings);

      if explorer != null {
        assert explorer.Marks() == MoveMarker(before, current, newPath) by {
          forall p | p in explorer.fileItems
            ensures explorer.Marks()[p] == MoveMarker(before, current, newPath)[p]
          {
            if p != current && p != newPath {
              assert explorer.fileItems[p].coverEl != currentCoverEl;
              assert explorer.fileItems[p].coverEl != newCoverEl;
            }
          }
        }
        if MarkedAtMost(before, current) {
          MoveMarkerEstablishesExact(before, current, newPath);
        }
      }
    }

    /**
     * patchFileExplorer: fail without an explorer; do nothing when its patch
     * flag is set; otherwise wrap the listing function under the patch id,
     * refresh the marker for the current scope path, and set the flag.
     */
    method PatchFileExplorer(explorer: FileExplorer?) returns (r: Outcome)
      requires explorer != null ==> explorer.Valid()
      modifies this
      modifies if explorer == null then {} else {explorer, explorer.proto} + explorer.CoversOf({settings.scopePath})
      ensures explorer == null ==>
        r == Failure(NoExplorerMessage) && settings == old(settings) && persisted == old(persisted)
      ensures explorer != null && old(settings.patchId in explorer.props) ==>
        r == Done && settings == old(settings) && persisted == old(persisted)
        && unchanged(explorer, explorer.proto) && explorer.Marks() == old(explorer.Marks())
      ensures explorer != null && old(settings.patchId !in explorer.props) ==>
        r == Done && settings == old(settings) && persisted == Persist(settings)
        && explorer.props == old(explorer.props) + {settings.patchId}
        && explorer.proto.redirects == old(explorer.proto.redirects) + {settings.patchId}
        && explorer.fileItems == old(explorer.fileItems)
        && explorer.Marks() == MoveMarker(old(explorer.Marks()), settings.scopePath, settings.scopePath)
      ensures old(Valid()) ==> Valid()
    {
      if explorer == null {
        return Failure(NoExplorerMessage);
      }
      if GetPatchId() in explorer.props {
        return Done;
      }
      explorer.proto.redirects := explorer.proto.redirects + {GetPatchId()};
      SetPath(explorer, GetPath());
      explorer.props := explorer.props + {GetPatchId()};
      r := Done;
    }

    /** onunload: remove the patch flag from the explorer, if there is one. */
    method Onunload(explorer: FileExplorer?)
      modifies if explorer == null then {} else {explorer}
      ensures explorer != null ==>
        explorer.props == old(explorer.props) - {settings.patchId}
        && explorer.fileItems == old(explorer.fileItems)
        && explorer.proto.redirects == old(explorer.proto.redirects)
      ensures settings == old(settings) && persisted == old(persisted)
    {
      if explorer != null {
        explorer.props := explorer.props - {GetPatchId()};
      }
    }

    /**
     * The listing function of the view as the redirect leaves it, given what
     * the original listing returns for the same folder: unchanged while no
     * redirect under the patch id is installed, redirected otherwise.
     */
    method GetSortedFolderItems(explorer: FileExplorer, folder: Folder, original: seq<FileItem>)
      returns (items: seq<FileItem>)
      ensures settings.patchId !in explorer.proto.redirects ==> items == original
      ensures settings.patchId in explorer.proto.redirects && folder.isRoot && settings.scopePath in explorer.fileItems ==>
        items == [explorer.fileItems[settings.scopePath]]
      ensures settings.patchId in explorer.proto.redirects && !(folder.isRoot && settings.scopePath in explorer.fileItems) ==>
        items == original
    {
      if GetPatchId() !in explorer.proto.redirects {
        return original;
      }
      var route := Redirect(folder, explorer.fileItems, GetPath());
      match route
      case Substitute(substituted) =>
        items := substituted;
      case Original =>
        items := original;
    }
  }

  /**
   * Patching the same live explorer twice in a row, from any state: both calls
   * succeed, and the patch id is added once to the redirect keys and to the
   * explorer's flags; the second call changes nothing.
   */
  method PatchTwice(plugin: Plugin, explorer: FileExplorer)
    returns (first: Outcome, second: Outcome, ghost marksAfterFirst: Marks, ghost persistedAfterFirst: Option<StoredSettings>)
    requires explorer.Valid()
    modifies plugin, explorer, explorer.proto, explorer.CoversOf({plugin.settings.scopePath})
    ensures first == Done && second == Done
    ensures plugin.settings == old(plugin.settings)
    ensures explorer.fileItems == old(explorer.fileItems)
    ensures explorer.props == old(explorer.props) + {plugin.settings.patchId}
    ensures explorer.proto.redirects ==
      if plugin.settings.patchId in old(explorer.props) then old(explorer.proto.redirects)
      else old(explorer.proto.redirects) + {plugin.settings.patchId}
    ensures explorer.Marks() == marksAfterFirst && plugin.persisted == persistedAfterFirst
  {
    first := plugin.PatchFileExplorer(explorer);
    assert plugin.settings.patchId in explorer.props;
    marksAfterFirst := explorer.Marks();
    persistedAfterFirst := plugin.persisted;
    second := plugin.PatchFileExplorer(explorer);
  }

  /** A fixed run: one "/Projects" item, nothing persisted, two patch calls install one redirect. */
  method InstallTwiceScenario() returns (first: Outcome, second: Outcome, redirects: set<string>)
    ensures first == Done && second == Done
    ensures redirects == {"obsidian-scope-to-this-patch"}
  {
    var proto := new ExplorerPrototype();
    var projects := new FileItem();
    var explorer := new FileExplorer(proto, map["/Projects" := projects]);
    var plugin := new Plugin.Load(None);
    FirstLoadIsUnscoped();
    first := plugin.PatchFileExplorer(explorer);
    second := plugin.PatchFileExplorer(explorer);
    redirects := proto.redirects;
  }

  /**
   * Scoping to "/Projects" marks its cover element and redirects the root
   * listing to it; once the folder is deleted, the root listing falls back to
   * the original while the stale scope path stays.
   */
  method ProjectsScenario()
    returns (scoped: seq<FileItem>, stale: seq<FileItem>, path: string, projects: FileItem, notes: FileItem)
    ensures scoped == [projects]
    ensures stale == [notes]
    ensures path == "/Projects"
    ensures projects.coverEl.id == Some(ScopeTargetId) && notes.coverEl.id == None
  {
    var proto := new ExplorerPrototype();
    proto.redirects := {"obsidian-scope-to-this-patch"};
    projects := new FileItem();
    notes := new FileItem();
    var root := Folder("/", true);
    var explorer := new FileExplorer(proto, map["/Projects" := projects, "/Notes" := notes]);
    var plugin := new Plugin.Load(None);
    FirstLoadIsUnscoped();

    assert explorer.fileItems["/Projects"] == projects && explorer.fileItems["/Notes"] == notes;
    assert "/Notes" != "/Projects" && "/Notes" != "";
    plugin.SetPath(explorer, "/Projects");
    assert plugin.settings.scopePath == "/Projects";
    assert projects.coverEl.id == Some(ScopeTargetId) && notes.coverEl.id == None;
    scoped := plugin.GetSortedFolderItems(explorer, root, [notes, projects]);

    explorer.fileItems := map["/Notes" := notes];
    assert "/Projects" !in explorer.fileItems;
    stale := plugin.GetSortedFolderItems(explorer, root, [notes]);
    path := plugin.GetPath();
  }
}
