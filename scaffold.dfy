/**
 * The `kcd-utils-template.createLuaMod` command: asks for a folder and a
 * mod name, lays out the mod's folders and files, downloads KCDUtils next
 * to it and writes the editor settings and workspace.  The user's answers,
 * the existence check, the templates' text and the download's success are
 * inputs; what the command does to the disk comes back as an ordered log.
 */
module Scaffold {
  import opened Wrappers
  import opened Paths
  import opened Names
  import opened DateStamp
  import Archive
  import NameExamples

  /** The answer that confirms overwriting an existing mod folder. */
  const Yes: string := "Ja"

  /** The button of the final message that opens the new workspace. */
  const OpenWorkspace: string := "Open workspace"

  const ClassToken: string := "{{MODNAME_CLASS}}"
  const FolderToken: string := "{{MODNAME_FOLDER}}"
  const DateToken: string := "{{DATE}}"

  /** The fixed KCDUtils release the command downloads. */
  const ReleaseUrl: string := "https://github.com/Destuur/KCDUtils/releases/download/0.0.1/kcdutils.zip"

  /** What the command hears from the user and the environment, in the order it asks. */
  datatype Answers = Answers(
    selection: Option<seq<Path>>,     // showOpenDialog: None when cancelled
    nameInput: Option<string>,        // showInputBox: None when cancelled
    existing: set<Path>,              // the paths fs.existsSync reports as present
    overwrite: Option<string>,        // the button picked in the overwrite warning
    luaTemplate: Option<string>,      // templates/mod.lua; None when it cannot be read
    manifestTemplate: Option<string>, // templates/mod.manifest; None when it cannot be read
    year: int, month0: int, day: int, // the clock, as getCurrentDate reads it
    downloadOk: bool,                 // downloadAndExtractZip resolved
    finalChoice: Option<string>)      // the button picked in the final message

  /** A file's text: a template with its placeholders and their values, or one of the two JSON documents. */
  datatype Content =
    | Filled(template: string, substitutions: seq<(string, string)>)
    | LibrarySettings(library: seq<Path>)
    | WorkspaceDoc(folders: seq<Path>)

  /** One thing the command does outside itself. */
  datatype Effect =
    | Mkdir(dir: Path)
    | Write(file: Path, content: Content)
    | Unpack(url: string, dest: Path)
    | OpenFolder(target: Path)

  /** How the command ended. */
  datatype Outcome =
    | NoFolder
    | EmptySelection
    | NoName
    | Declined
    | LuaTemplateUnreadable
    | ManifestTemplateUnreadable
    | DownloadFailed
    | Created(workspace: Path)

  // ---------------------------------------------------------------------
  // The layout of a mod
  // ---------------------------------------------------------------------

  // Every name joined below is a slug, a slug with a suffix, or a fixed
  // name, so `path.join` only appends (LayoutNamesJoinable).

  function ModFolder(root: Path, slug: string): Path { Descend(root, [slug]) }

  function ScriptsDir(root: Path, slug: string): Path {
    Descend(ModFolder(root, slug), ["Data", slug, "Scripts", "Mods"])
  }

  function LuaFile(root: Path, slug: string): Path { Descend(ScriptsDir(root, slug), [slug + ".lua"]) }

  function ManifestFile(root: Path, slug: string): Path { Descend(ModFolder(root, slug), ["mod.manifest"]) }

  function ModDataDir(root: Path, slug: string): Path { Descend(ModFolder(root, slug), ["Data", slug]) }

  function VscodeDir(root: Path, slug: string): Path { Descend(ModFolder(root, slug), ["Data", slug, ".vscode"]) }

  function SettingsFile(root: Path, slug: string): Path { Descend(VscodeDir(root, slug), ["settings.json"]) }

  function WorkspaceFile(root: Path, slug: string): Path {
    Descend(ModFolder(root, slug), ["Data", slug, slug + ".code-workspace"])
  }

  /** `kcdutils/Data/kcdutils`: the data folder of the unpacked KCDUtils, the workspace's second folder. */
  const DependencyNames: seq<string> := ["kcdutils", "Data", "kcdutils"]

  /** `kcdutils/Data/kcdutils/Scripts/Mods/Utils`: its Lua library folder. */
  const LibraryNames: seq<string> := ["kcdutils", "Data", "kcdutils", "Scripts", "Mods", "Utils"]

  function LibraryPath(root: Path): Path { Descend(root, LibraryNames) }

  function DependencyDir(root: Path): Path { Descend(root, DependencyNames) }

  // ---------------------------------------------------------------------
  // The effects, in order
  // ---------------------------------------------------------------------

  /** The Lua entry script, its class placeholder filled in (lines 102-107). */
  function LuaWrite(root: Path, slug: string, cls: string, lua: string): Effect {
    Write(LuaFile(root, slug), Filled(lua, [(ClassToken, cls)]))
  }

  /** mod.manifest, its three placeholders filled in, in this order (lines 112-121). */
  function ManifestWrite(root: Path, slug: string, cls: string, manifest: string, date: string): Effect {
    Write(ManifestFile(root, slug),
          Filled(manifest, [(FolderToken, slug), (ClassToken, cls), (DateToken, date)]))
  }

  function SettingsWrite(root: Path, slug: string): Effect {
    Write(SettingsFile(root, slug), LibrarySettings([LibraryPath(root)]))
  }

  function WorkspaceWrite(root: Path, slug: string): Effect {
    Write(WorkspaceFile(root, slug), WorkspaceDoc([ModDataDir(root, slug), DependencyDir(root)]))
  }

  /** Everything a run that gets past every question does, before the final message. */
  function Plan(root: Path, slug: string, cls: string, lua: string, manifest: string, date: string): seq<Effect> {
    [ Mkdir(ScriptsDir(root, slug)),
      LuaWrite(root, slug, cls, lua),
      ManifestWrite(root, slug, cls, manifest, date),
      Unpack(ReleaseUrl, root),
      Mkdir(VscodeDir(root, slug)),
      SettingsWrite(root, slug),
      WorkspaceWrite(root, slug) ]
  }

  /** The final message's button opens the workspace, any other answer nothing. */
  function Opened(finalChoice: Option<string>, workspace: Path): seq<Effect> {
    if finalChoice == Some(OpenWorkspace) then [OpenFolder(workspace)] else []
  }

  // ---------------------------------------------------------------------
  // The command
  // ---------------------------------------------------------------------

  /** A folder was picked; `folderUri[0]` exists. */
  predicate HasRoot(a: Answers) { a.selection.Some? && a.selection.value != [] }

  function Root(a: Answers): Path
    requires HasRoot(a)
  {
    a.selection.value[0]
  }

  /** A non-empty name was typed (an empty string counts as cancelling). */
  predicate HasName(a: Answers) { a.nameInput.Some? && a.nameInput.value != "" }

  /** Every question was answered so that the command goes on to create the mod. */
  predicate Confirmed(a: Answers) {
    && HasRoot(a) && HasName(a)
    && (ModFolder(Root(a), Slug(a.nameInput.value)) in a.existing ==> a.overwrite == Some(Yes))
  }

  /**
   * What the part after the questions does, for the folder, the derived
   * names and the date: it stops after the first effect when the Lua
   * template cannot be read, after the second when the manifest template
   * cannot, after the download when that fails, and otherwise carries out
   * the whole plan (and opens the workspace when asked to).
   */
  predicate Built(root: Path, slug: string, cls: string, date: string,
                  lua: Option<string>, manifest: Option<string>,
                  downloadOk: bool, finalChoice: Option<string>,
                  outcome: Outcome, log: seq<Effect>)
  {
    && (lua.None? ==> outcome == LuaTemplateUnreadable && log == [Mkdir(ScriptsDir(root, slug))])
    && (lua.Some? && manifest.None? ==>
          outcome == ManifestTemplateUnreadable && log == [Mkdir(ScriptsDir(root, slug)), LuaWrite(root, slug, cls, lua.value)])
    && (lua.Some? && manifest.Some? && !downloadOk ==>
          outcome == DownloadFailed && log == Plan(root, slug, cls, lua.value, manifest.value, date)[..4])
    && (lua.Some? && manifest.Some? && downloadOk ==>
          && outcome == Created(WorkspaceFile(root, slug))
          && log == Plan(root, slug, cls, lua.value, manifest.value, date) + Opened(finalChoice, WorkspaceFile(root, slug)))
  }

  /**
   * The part of the handler after the questions (lines 93-173), for the
   * folder, the derived names and the date: it throws when a template
   * cannot be read and reports a failed download, which ends it after the
   * mod's own files are written and before any editor file is.
   */
  method BuildMod(root: Path, slug: string, cls: string, date: string,
                  lua: Option<string>, manifest: Option<string>,
                  downloadOk: bool, finalChoice: Option<string>)
    returns (outcome: Outcome, log: seq<Effect>)
    ensures Built(root, slug, cls, date, lua, manifest, downloadOk, finalChoice, outcome, log)
  {
    log := [Mkdir(ScriptsDir(root, slug))];
    if lua.None? {
      return LuaTemplateUnreadable, log;
    }
    log := log + [LuaWrite(root, slug, cls, lua.value)];
    if manifest.None? {
      return ManifestTemplateUnreadable, log;
    }
    log := log + [ManifestWrite(root, slug, cls, manifest.value, date)];

    log := log + [Unpack(ReleaseUrl, root)];
    ghost var plan := Plan(root, slug, cls, lua.value, manifest.value, date);
    assert log == plan[..4];
    if !downloadOk {
      return DownloadFailed, log;
    }

    log := log + [Mkdir(VscodeDir(root, slug))];
    log := log + [SettingsWrite(root, slug)];
    log := log + [WorkspaceWrite(root, slug)];
    assert log == plan;

    var workspacePath := WorkspaceFile(root, slug);
    if finalChoice == Some(OpenWorkspace) {
      log := log + [OpenFolder(workspacePath)];
    }
    outcome := Created(workspacePath);
  }

  /**
   * The command handler.  It returns without touching the disk when the
   * dialog or the name box is cancelled or an overwrite is refused, and
   * throws before touching it when the dialog returns no folder; past the
   * questions it builds the mod from the name's slug, its class name and
   * today's date.
   */
  method CreateLuaMod(a: Answers) returns (outcome: Outcome, log: seq<Effect>)
    ensures a.selection.None? ==> outcome == NoFolder && log == []
    ensures a.selection == Some([]) ==> outcome == EmptySelection && log == []
    ensures HasRoot(a) && !HasName(a) ==> outcome == NoName && log == []
    ensures HasRoot(a) && HasName(a) && !Confirmed(a) ==> outcome == Declined && log == []
    ensures Confirmed(a) ==>
      Built(Root(a), Slug(a.nameInput.value), ClassName(a.nameInput.value), FormatDate(a.year, a.month0, a.day),
            a.luaTemplate, a.manifestTemplate, a.downloadOk, a.finalChoice, outcome, log)
  {
    if a.selection.None? {
      return NoFolder, [];
    }
    if a.selection.value == [] {
      return EmptySelection, [];
    }
    var root := a.selection.value[0];
    if a.nameInput.None? || a.nameInput.value == "" {
      return NoName, [];
    }
    var input := a.nameInput.value;
    var modName := Slug(input);
    var className := ClassName(input);
    var modFolder := ModFolder(root, modName);
    if modFolder in a.existing && a.overwrite != Some(Yes) {
      return Declined, [];
    }
    outcome, log := BuildMod(root, modName, className, FormatDate(a.year, a.month0, a.day),
                             a.luaTemplate, a.manifestTemplate, a.downloadOk, a.finalChoice);
  }

  // ---------------------------------------------------------------------
  // Properties of the layout and the plan
  // ---------------------------------------------------------------------

  /** The path segment a slug contributes: none for the empty slug. */
  function Named(slug: string): seq<string> { if slug == "" then [] else [slug] }

  /** A slug is a plain path segment, or empty. */
  lemma SlugIsSegment(slug: string)
    requires IsSlug(slug)
    ensures slug == "" || IsPlain(slug)
  {
    if slug != "" {
      assert slug[0] != '.';
    }
  }

  /** A slug followed by a suffix with no separator that is longer than two is a plain segment. */
  lemma SuffixedIsPlain(slug: string, suffix: string)
    requires IsSlug(slug) && NoSeparator(suffix) && |suffix| > 2
    ensures IsPlain(slug + suffix)
  {
    var s := slug + suffix;
    forall i | 0 <= i < |s| ensures !IsSeparator(s[i]) {
      if i < |slug| {
        assert s[i] == slug[i];
      } else {
        assert s[i] == suffix[i - |slug|];
      }
    }
  }

  lemma NonEmptyOne(s: string)
    ensures NonEmptyNames([s]) == Named(s)
  {
    assert [s][1..] == [];
  }

  lemma NonEmptyTwo(d: string, s: string)
    requires d != ""
    ensures NonEmptyNames([d, s]) == [d] + Named(s)
  {
    assert [d, s][1..] == [s];
    NonEmptyOne(s);
  }

  lemma NonEmptyThree(d: string, s: string, x: string)
    requires d != "" && x != ""
    ensures NonEmptyNames([d, s, x]) == [d] + Named(s) + [x]
  {
    assert [d, s, x][1..] == [s, x] && [s, x][1..] == [x];
    NonEmptyOne(x);
  }

  lemma NonEmptyFour(d: string, s: string, x: string, y: string)
    requires d != "" && x != "" && y != ""
    ensures NonEmptyNames([d, s, x, y]) == [d] + Named(s) + [x, y]
  {
    assert [d, s, x, y][1..] == [s, x, y] && [s, x, y][1..] == [x, y];
    assert [x, y][1..] == [y] && [y][1..] == [];
    assert NonEmptyNames([y]) == [y];
    assert NonEmptyNames([x, y]) == [x, y];
    assert NonEmptyNames([s, x, y]) == Named(s) + [x, y];
  }

  /**
   * Where the command puts things, for any slug: the mod folder followed
   * by fixed names, the slug's own segment left out when the slug is empty.
   */
  lemma ModLayout(root: Path, slug: string)
    ensures var m := root + Named(slug);
      var data := m + (["Data"] + Named(slug));
      && ModFolder(root, slug) == m
      && ModDataDir(root, slug) == data
      && ScriptsDir(root, slug) == m + (["Data"] + Named(slug) + ["Scripts", "Mods"])
      && LuaFile(root, slug) == ScriptsDir(root, slug) + [slug + ".lua"]
      && ManifestFile(root, slug) == m + ["mod.manifest"]
      && VscodeDir(root, slug) == m + (["Data"] + Named(slug) + [".vscode"])
      && SettingsFile(root, slug) == VscodeDir(root, slug) + ["settings.json"]
      && WorkspaceFile(root, slug) == m + (["Data"] + Named(slug) + [slug + ".code-workspace"])
  {
    NonEmptyOne(slug);
    NonEmptyTwo("Data", slug);
    NonEmptyFour("Data", slug, "Scripts", "Mods");
    NonEmptyOne(slug + ".lua");
    NonEmptyOne("mod.manifest");
    NonEmptyThree("Data", slug, ".vscode");
    NonEmptyOne("settings.json");
    NonEmptyThree("Data", slug, slug + ".code-workspace");
  }

  /**
   * Every name the command hands to `path.join` is plain or empty, so by
   * DescendIsJoin each layout path is exactly what `path.join` makes of it.
   */
  lemma LayoutNamesJoinable(slug: string)
    requires IsSlug(slug)
    ensures Joinable([slug])
    ensures Joinable(["Data", slug]) && Joinable(["Data", slug, "Scripts", "Mods"]) && Joinable(["Data", slug, ".vscode"])
    ensures Joinable([slug + ".lua"]) && Joinable(["Data", slug, slug + ".code-workspace"])
    ensures Joinable(["mod.manifest"]) && Joinable(["settings.json"])
    ensures Joinable(LibraryNames) && Joinable(DependencyNames)
  {
    SlugIsSegment(slug);
    SuffixedIsPlain(slug, ".lua");
    SuffixedIsPlain(slug, ".code-workspace");
  }

  /** The path a `Mkdir` or `Write` effect touches. */
  function Touched(e: Effect): Option<Path> {
    match e
    case Mkdir(d) => Some(d)
    case Write(f, _) => Some(f)
    case _ => None
  }

  /**
   * Every `Mkdir` and `Write` effect of the plan lies inside the mod folder.
   * The download between them is not covered: it unpacks into
   * `<root>/kcdutils`, which is inside the mod folder only when the slug is
   * empty or `kcdutils` (ModFolderMeetsDownload).
   */
  lemma PlanStaysInModFolder(root: Path, slug: string, cls: string, lua: string, manifest: string, date: string)
    ensures forall i :: 0 <= i < |Plan(root, slug, cls, lua, manifest, date)| ==>
      var t := Touched(Plan(root, slug, cls, lua, manifest, date)[i]);
      t.Some? ==> ModFolder(root, slug) <= t.value
  {
    ModLayout(root, slug);
    var m := ModFolder(root, slug);
    var scripts := ScriptsDir(root, slug);
    var vscode := VscodeDir(root, slug);
    assert m <= scripts && scripts <= LuaFile(root, slug);
    assert m <= vscode && vscode <= SettingsFile(root, slug);
    assert m <= ManifestFile(root, slug) && m <= WorkspaceFile(root, slug);
  }

  /** The last character of the last segment tells the four written files apart. */
  lemma WrittenFilesDistinct(root: Path, slug: string)
    ensures LuaFile(root, slug) != ManifestFile(root, slug)
    ensures LuaFile(root, slug) != SettingsFile(root, slug)
    ensures LuaFile(root, slug) != WorkspaceFile(root, slug)
    ensures ManifestFile(root, slug) != SettingsFile(root, slug)
    ensures ManifestFile(root, slug) != WorkspaceFile(root, slug)
    ensures SettingsFile(root, slug) != WorkspaceFile(root, slug)
  {
    ModLayout(root, slug);
    var lua := slug + ".lua";
    var ws := slug + ".code-workspace";
    assert lua[|lua| - 1] == 'a';
    assert ws[|ws| - 1] == 'e';
    assert "mod.manifest"[|"mod.manifest"| - 1] == 't';
    assert "settings.json"[|"settings.json"| - 1] == 'n';
  }

  /** None of the editor files or their folder is touched before the download. */
  lemma PlanDownloadsBeforeEditorFiles(root: Path, slug: string, cls: string, lua: string, manifest: string, date: string)
    ensures var plan := Plan(root, slug, cls, lua, manifest, date);
      forall i :: 0 <= i < 4 ==>
        && Touched(plan[i]) != Some(VscodeDir(root, slug))
        && Touched(plan[i]) != Some(SettingsFile(root, slug))
        && Touched(plan[i]) != Some(WorkspaceFile(root, slug))
  {
    ModLayout(root, slug);
    WrittenFilesDistinct(root, slug);
    var scripts := ScriptsDir(root, slug);
    var vscode := VscodeDir(root, slug);
    var ws := slug + ".code-workspace";
    assert scripts[|scripts| - 1] == "Mods";
    assert vscode[|vscode| - 1] == ".vscode";
    assert SettingsFile(root, slug)[|SettingsFile(root, slug)| - 1] == "settings.json";
    assert WorkspaceFile(root, slug)[|WorkspaceFile(root, slug)| - 1] == ws;
    assert ManifestFile(root, slug)[|ManifestFile(root, slug)| - 1] == "mod.manifest";
    assert LuaFile(root, slug)[|LuaFile(root, slug)| - 1] == slug + ".lua";
    assert ws[|ws| - 1] == 'e';
  }

  /**
   * The editor files point into the tree the download unpacks: the
   * library in settings.json lies inside `<root>/kcdutils`, and each
   * folder of the workspace lies inside the mod folder or inside
   * `<root>/kcdutils`.
   */
  lemma EditorFilesPointIntoDownload(root: Path, slug: string)
    ensures DependencyDir(root) == Archive.UnpackRoot(root) + ["Data", "kcdutils"]
    ensures LibraryPath(root) == Archive.UnpackRoot(root) + ["Data", "kcdutils", "Scripts", "Mods", "Utils"]
    ensures forall l :: l in SettingsWrite(root, slug).content.library ==> Archive.UnpackRoot(root) <= l
    ensures forall f :: f in WorkspaceWrite(root, slug).content.folders ==>
      ModFolder(root, slug) <= f || Archive.UnpackRoot(root) <= f
  {
    ModLayout(root, slug);
  }

  /** The effect creates or writes the `.vscode` folder, settings.json or the workspace file. */
  predicate TouchesEditorFile(root: Path, slug: string, e: Effect) {
    || Touched(e) == Some(VscodeDir(root, slug))
    || Touched(e) == Some(SettingsFile(root, slug))
    || Touched(e) == Some(WorkspaceFile(root, slug))
  }

  /**
   * Over every log the command can produce past its questions, each
   * effect on the editor files comes after the download of KCDUtils, and
   * a failed download leaves the editor files untouched.
   */
  lemma EditorFilesAfterDownload(root: Path, slug: string, cls: string, date: string,
                                 lua: Option<string>, manifest: Option<string>,
                                 downloadOk: bool, finalChoice: Option<string>,
                                 outcome: Outcome, log: seq<Effect>)
    requires Built(root, slug, cls, date, lua, manifest, downloadOk, finalChoice, outcome, log)
    ensures forall j :: 0 <= j < |log| && TouchesEditorFile(root, slug, log[j]) ==>
      exists i :: 0 <= i < j && log[i] == Unpack(ReleaseUrl, root)
    ensures !downloadOk ==> forall j :: 0 <= j < |log| ==> !TouchesEditorFile(root, slug, log[j])
  {
    var l := if lua.Some? then lua.value else "";
    var m := if manifest.Some? then manifest.value else "";
    var plan := Plan(root, slug, cls, l, m, date);
    PlanDownloadsBeforeEditorFiles(root, slug, cls, l, m, date);
    assert forall j :: 0 <= j < 4 ==> !TouchesEditorFile(root, slug, plan[j]);
    if lua.Some? && manifest.Some? && downloadOk {
      var extra := Opened(finalChoice, WorkspaceFile(root, slug));
      assert log == plan + extra;
      assert forall j :: 0 <= j < 4 ==> log[j] == plan[j];
      assert log[3] == Unpack(ReleaseUrl, root);
    } else {
      assert |log| <= 4 && forall j :: 0 <= j < |log| ==> log[j] == plan[j];
    }
  }

  /**
   * A mod whose slug is `kcdutils` is created in the very folder the
   * download unpacks into; no other name collides with it.
   */
  lemma ModFolderMeetsDownload(root: Path, name: string)
    ensures ModFolder(root, Slug(name)) == Archive.UnpackRoot(root) <==> Slug(name) == Archive.TopFolder
    ensures ModFolder(root, Slug(name)) <= Archive.UnpackRoot(root) <==> Slug(name) == "" || Slug(name) == Archive.TopFolder
  {
    ModLayout(root, Slug(name));
    if Slug(name) == "" {
      assert |root + Named("")| != |root + [Archive.TopFolder]|;
    } else {
      assert (root + [Slug(name)])[|root|] == Slug(name);
      assert |root + [Slug(name)]| == |Archive.UnpackRoot(root)|;
    }
  }

  lemma Regroup(r: Path, d: string, x: string, y: string, z: string)
    ensures r + ([d] + [] + [x, y]) + [z] == r + [d, x, y, z]
  {
  }

  /** A name without letters makes the selected folder itself the mod folder. */
  lemma EmptySlugUsesSelectedFolder(root: Path, name: string)
    requires Slug(name) == ""
    ensures ModFolder(root, Slug(name)) == root
    ensures ManifestFile(root, Slug(name)) == root + ["mod.manifest"]
    ensures LuaFile(root, Slug(name)) == root + ["Data", "Scripts", "Mods", ".lua"]
  {
    ModLayout(root, "");
    assert "" + ".lua" == ".lua";
    Regroup(root, "Data", "Scripts", "Mods", ".lua");
  }

  /**
   * For a non-empty slug the manifest is `<root>/<slug>/mod.manifest`.  The
   * file name is passed in as a parameter because a string literal inside
   * the sequence equation makes the solver unfold it character by character.
   */
  lemma ManifestPath(root: Path, slug: string, file: string)
    requires slug != "" && file == "mod.manifest"
    ensures ManifestFile(root, slug) == root + [slug, file]
  {
    ModLayout(root, slug);
  }

  /** `Epic Loot!`: the manifest goes to `<root>/epic_loot/mod.manifest` with folder `epic_loot` and class `EpicLoot`. */
  lemma ManifestExampleEpicLoot(root: Path, name: string, manifest: string, date: string)
    requires name == "Epic Loot!"
    ensures ManifestWrite(root, Slug(name), ClassName(name), manifest, date)
      == Write(root + ["epic_loot", "mod.manifest"],
               Filled(manifest, [(FolderToken, "epic_loot"), (ClassToken, "EpicLoot"), (DateToken, date)]))
  {
    NameExamples.SlugExampleEpicLoot();
    NameExamples.ClassExampleEpicLoot();
    ManifestPath(root, "epic_loot", "mod.manifest");
  }
}
