# KCDUtils mod template generator — a Dafny model

The VS Code extension in `src/extension.ts` registers one command,
`kcd-utils-template.createLuaMod`. It asks for a folder and a mod name and
derives two names from what was typed:

- a folder / Lua file name, made by `sanitizeModName`;
- a Lua class name, made by `modNameToClass`.

Then it lays out the mod's folders and files:

- the Lua entry script, from a template;
- `mod.manifest`, from a template, stamped with today's date by `getCurrentDate`.

It downloads the KCDUtils release archive and unpacks it next to the mod,
re-rooting every entry under `<root>/kcdutils` (when the entry path holds
no `..`). Last, it writes the editor's
`settings.json` and a `.code-workspace` file that both point into the unpacked
tree.

This project models that core and proves its properties.

| file | module | models |
|---|---|---|
| `wrappers.dfy` | `Wrappers` | `Option` |
| `names.dfy` | `Names` | `sanitizeModName` and `modNameToClass`, with JavaScript's `\s`, `toLowerCase` and `split` semantics |
| `names_examples.dfy` | `NameExamples` | concrete names run through both normalisations |
| `date.dfy` | `DateStamp` | `getCurrentDate`, as a function of the clock's year, month (from 0) and day |
| `paths.dfy` | `Paths` | Node's `path.join` / `path.dirname` on paths held as sequences of segments |
| `archive.dfy` | `Archive` | the `'entry'` handler of `downloadAndExtractZip`: entry re-rooting, the disk as a value, a `FileSystem` class updated in place by `MkdirSync` / `WriteFile`, and the `Extract` loop over the entries |
| `scaffold.dfy` | `Scaffold` | the command handler, as a method that returns how it ended and the ordered log of what it did to the disk |

### How the model is built

- **Paths** are absolute and held as segments: `[]` is the root.
  - `/` and `\` both separate segments, as in Node's win32 `path` flavour.
  - Normalisation drops empty and `.` segments.
  - `..` climbs, and never goes above the root.
- **The disk** is a `Disk` value: a set of directories and a map from file paths to bytes.
  - `AfterMkdir` and `AfterWrite` specify `mkdirSync(…, {recursive: true})` and a completed write stream.
  - `Archive.FileSystem` holds the same two fields and changes them in place. Its methods are proved to produce exactly those functions' results.
  - `Archive.Extract` is the loop over the archive's entries. It is proved equal to `Apply`, the entries' handler folded over the sequence.
- **The command's inputs** are all in one `Answers` value:
  - the dialog, input box and warning answers;
  - the set of paths `existsSync` reports;
  - the two template texts;
  - the clock;
  - whether the download succeeded.

  `Scaffold.CreateLuaMod` returns an `Outcome` and the list of `Effect`s it performed, in order.

## Model

| member | source | states |
|---|---|---|
| Names.Slug | src/extension.ts:39-44 | the slug holds only characters of `[a-z_]` |
| Names.CollapseLeavesNoSpace | src/extension.ts:41 | after `replace(/\s+/g, '_')` no whitespace character is left |
| Names.SlugFixpoints | src/extension.ts:39-44 | sanitizing leaves a name unchanged exactly when it already is a slug (both directions) |
| Names.SlugIdempotent | src/extension.ts:39-44 | sanitizing twice gives the same as sanitizing once |
| Names.SlugOfRun | src/extension.ts:41-42 | a maximal whitespace run between two parts becomes exactly one `_`, and each side is sanitized independently |
| Names.SlugOfWord | src/extension.ts:41-42 | on a name without whitespace, sanitizing is lower-casing followed by the `[a-z_]` filter |
| Names.LowerCaseAppend | src/extension.ts:41 | `toLowerCase` distributes over concatenation |
| Names.KeepSlugCharsAppend | src/extension.ts:42 | the `[^a-z_]` deletion distributes over concatenation |
| Names.CollapseAppend | src/extension.ts:41 | a boundary after a non-whitespace character splits no run, so collapsing distributes over it |
| Names.ScanOfStripped | src/extension.ts:49 | deleting the characters outside `[a-zA-Z\s]` does not change the one-pass class-name scan |
| Names.PipelineIsScan | src/extension.ts:51-54 | on cleaned text, split / capitalise each / join equals the one-pass scan (capitalise the first letter of each word, lower-case the rest) |
| Names.ClassNameIsScan | src/extension.ts:47-55 | `modNameToClass` of any input equals the one-pass scan of the raw input |
| Names.ClassNameLetters | src/extension.ts:47-55 | the class name holds only ASCII letters; lower-casing it gives the input's ASCII letters lower-cased, in order; its length is the number of ASCII letters in the input |
| Names.ClassNameLeadingSpace | src/extension.ts:52-54 | leading whitespace (the empty first piece of the split) adds nothing |
| Names.ScanAcrossRun | src/extension.ts:52-53 | a whitespace run only makes the next letter start a word |
| Names.ClassNameSpaceRun | src/extension.ts:52 | any whitespace run between two parts acts as a single space |
| NameExamples.SlugExampleMyMod | src/extension.ts:39-44 | `"My Mod 2!"` gives `"my_mod_"` |
| NameExamples.SlugExampleEpicLoot | src/extension.ts:39-44 | `"Epic Loot!"` gives `"epic_loot"` |
| NameExamples.SlugExampleNoLetters | src/extension.ts:39-44 | `"123"` and `""` both give the empty slug |
| NameExamples.ClassExampleTestMod | src/extension.ts:47-55 | `"test_mod_42"` gives `"Testmod"` |
| NameExamples.ClassExampleMyCoolMod | src/extension.ts:47-55 | `"my cool mod"` gives `"MyCoolMod"` |
| NameExamples.ClassExampleEpicLoot | src/extension.ts:47-55 | `"Epic Loot!"` gives `"EpicLoot"` |
| DateStamp.PadStart2 | src/extension.ts:60-61 | `padStart(2, '0')`: the length is at least 2, the input is the suffix, and only `0`s are added in front |
| DateStamp.NatToStringRoundTrip | src/extension.ts:60-61 | reading back `String(n)` as decimal digits gives `n` |
| DateStamp.FormatDateRoundTrip | src/extension.ts:57-63 | for a four-digit year, month 0..11 and day 1..31 the stamp has 10 characters, `-` at indices 4 and 7, two-digit month and day, and parses back to (year, month + 1, day) |
| DateStamp.FormatDateInjective | src/extension.ts:57-63 | distinct dates in those ranges give distinct stamps |
| Paths.Parent | src/extension.ts:29 | `path.dirname` is a prefix of its argument, one segment shorter (the root excepted) |
| Paths.ResolveAllExtends | src/extension.ts:23 | without `..` segments, joining only appends to the base |
| Paths.JoinPlain | src/extension.ts:23 | joining plain names appends them as they are |
| Paths.JoinAfterName | src/extension.ts:23 | joining a plain name and then a relative path resolves the path onto the extended base |
| Paths.DescendIsJoin | src/extension.ts:84-158 | for names that are plain or empty, `path.join` appends the non-empty ones |
| Archive.StripTopFolderOnce | src/extension.ts:22 | the leading `kcdutils/` or `kcdutils\` is removed once; a second one stays |
| Archive.TargetIgnoresTopFolder | src/extension.ts:22-23 | `kcdutils/a` and `a` go to the same target |
| Archive.TargetResolves | src/extension.ts:23 | the target is the stripped entry path resolved onto `<dest>/kcdutils` |
| Archive.TargetUnderRoot | src/extension.ts:22-23 | an entry path without `..` lands inside `<dest>/kcdutils` |
| Archive.TargetCanEscape | src/extension.ts:22-23 | `kcdutils/../../n` lands at `n` beside `dest`, outside the unpack root: nothing guards against `..` |
| Archive.AfterMkdir | src/extension.ts:26 | recursive mkdir fails exactly when a file sits on the path; otherwise files are unchanged and the directories added are exactly the path and its ancestors, so the path and all its ancestors exist |
| Archive.AfterWrite | src/extension.ts:30 | a write fails exactly when the path is a directory or its parent is not one; otherwise only that file changes, to the new bytes |
| Archive.ApplyWellFormed | src/extension.ts:20-31 | extraction keeps the disk well formed: no path is both directory and file, and every ancestor of either is a directory |
| Archive.ApplyMonotone | src/extension.ts:20-31 | extraction never removes a directory |
| Archive.ApplyCreatesDirectories | src/extension.ts:25-29 | after a complete run every directory entry's target exists, and so does every file entry's parent |
| Archive.ApplyFileContents | src/extension.ts:29-30 | a path no entry maps to keeps its old content; after a complete run a file target holds the bytes of the last entry written to it, unless the path ended up a directory |
| Archive.ApplyStaysUnderRoot | src/extension.ts:20-31 | with `..`-free entry paths no file outside `<dest>/kcdutils` changes, and every new directory lies on the way to or inside it |
| Archive.ApplyStopsAtFailure | src/extension.ts:26-29 | once a mkdir has thrown, later entries change nothing |
| Archive.FileSystem.MkdirSync | src/extension.ts:26 | the new state is `AfterMkdir` of the old one; on failure nothing changes |
| Archive.FileSystem.WriteFile | src/extension.ts:30 | the new state is `AfterWrite` of the old one; on failure nothing changes |
| Archive.Extract | src/extension.ts:17-35 | the loop over the entries leaves the disk, and its success flag, exactly as `Apply` describes |
| Scaffold.CreateLuaMod | src/extension.ts:68-91 | a cancelled dialog, an empty selection, a missing or empty name and a refused overwrite each end the command with nothing done; otherwise it builds the mod from the first folder, the name's slug and class name, and the date stamp |
| Scaffold.BuildMod | src/extension.ts:93-173 | the effects in order: scripts folder, Lua file, manifest, download, `.vscode` folder, `settings.json`, workspace file, then open it only on "Open workspace"; an unreadable template stops after the earlier effects, and a failed download stops after the manifest and before any editor file |
| Scaffold.ModLayout | src/extension.ts:84-153 | where each folder and file goes, for any slug, the slug's own segment dropped when it is empty |
| Scaffold.LayoutNamesJoinable | src/extension.ts:84-158 | every name passed to `path.join` is plain or empty, so the layout is exactly what `path.join` produces |
| Scaffold.PlanStaysInModFolder | src/extension.ts:96-163 | every `Mkdir` and `Write` effect of the plan lies inside the mod folder; the download between them unpacks into `<root>/kcdutils`, which is the mod folder only when the slug is `kcdutils` (`Scaffold.ModFolderMeetsDownload`) and inside it only when the slug is empty |
| Scaffold.WrittenFilesDistinct | src/extension.ts:107-163 | the four files written are pairwise distinct paths |
| Scaffold.PlanDownloadsBeforeEditorFiles | src/extension.ts:127-148 | none of the first four effects touches the `.vscode` folder, `settings.json` or the workspace file |
| Scaffold.EditorFilesPointIntoDownload | src/extension.ts:141-161 | the library path and the dependency folder are the unpack root extended by fixed names; every library `settings.json` lists lies inside `<root>/kcdutils`, and every workspace folder lies inside the mod folder or inside `<root>/kcdutils` |
| Scaffold.EditorFilesAfterDownload | src/extension.ts:127-163 | in every log the command can produce past its questions, each effect on the `.vscode` folder, `settings.json` or the workspace file comes after the download, and a failed download leaves them untouched |
| Scaffold.ModFolderMeetsDownload | src/extension.ts:84-131 | the mod folder is the folder the download unpacks into exactly when the slug is `kcdutils`, and contains it exactly when the slug is empty or `kcdutils` |
| Scaffold.EmptySlugUsesSelectedFolder | src/extension.ts:80-121 | a name without letters makes the selected folder itself the mod folder, and the Lua file is named `.lua` |
| Scaffold.ManifestExampleEpicLoot | src/extension.ts:112-121 | for `"Epic Loot!"` the manifest goes to `<root>/epic_loot/mod.manifest`, filled with `epic_loot`, `EpicLoot` and the date |

## Where the code and its documentation differ

In each case the model follows the code:

- **Slug of `"My Mod 2!"`.** It is `"my_mod_"`, not `"my_mod"`. Whitespace becomes `_` before the digits and `!` are deleted.
- **Class name of `"test_mod_42"`.** It is `"Testmod"`, not `"TestMod"`. Line 49 deletes the underscores before line 52 splits on them, so only whitespace separates words.
- **No invalid-name check.** An empty slug or class name is not rejected. A name such as `"123"` makes the selected folder itself the mod folder, with a Lua file named `.lua` (`Scaffold.EmptySlugUsesSelectedFolder`).
- **The archive's top folder.** It is stripped from each entry path that starts with `kcdutils/` or `kcdutils\` (line 22; other paths are kept as they are), then added back by `path.join(destPath, 'kcdutils', …)` (line 23). For entry paths without `..` the tree therefore lands in `<root>/kcdutils`, where the editor files point (`Archive.TargetUnderRoot`); an entry path with `..` can land outside it (`Archive.TargetCanEscape`).
- **Unreadable templates.** A missing template throws; it is not a recoverable warning. The command stops after the effects already done.
- **No configuration merging.** `settings.json` and the workspace file are overwritten, not merged.
- **No release lookup.** The download URL is one fixed release, with no "latest release" lookup.
- **An empty folder selection.** The code reads `folderUri[0]` (line 73). An empty selection makes that throw before anything is done; it is modelled as the outcome `EmptySelection`.

## Left out

- User interface: the messages, the dialog and the input box are represented only by the answers they return.
- Network: `fetch`, the response check and the buffer streaming (lines 9-15) are left out. The download is the input `downloadOk`, and the archive's entries are a sequence given to `Archive.Extract`.
- Zip decoding (`unzipper`) is left out; the entries arrive as a sequence, in archive order.
- Asynchrony is left out. Writes are modelled as completed in entry order, and an error event after the stream is closed is not modelled.
- The clock is left out: `getCurrentDate` takes the year, month and day that `Date` would report.
- DateStamp.FormatDateRoundTrip: stated only for four-digit years. Other years still format, but have another length.
- Placeholder substitution (lines 106 and 116-119): the model records each template with the placeholders and values it is filled with, and does not perform the replacement.
- `JSON.stringify` formatting is left out: `settings.json` and the workspace file are recorded as their structured content.
- Failures of `mkdirSync` and `writeFileSync` inside the command handler are left out; only the extraction loop models them. `Scaffold.BuildMod` therefore treats those calls as succeeding.
- Full Unicode case mapping is left out. `toLowerCase` is exact on ASCII and on the two non-ASCII characters that lower-case to ASCII letters (the Kelvin sign and capital I with dot above). Every other character is kept as it is, which no later step can observe. `toUpperCase` is applied only to ASCII letters, which is all that reaches it.
- In the extraction, a failed write stream (the target is a directory) is assumed to be ignored: the entry is lost and the parse goes on. In Node the error re-emitted by the pipe has no listener and surfaces as an uncaught exception, and the paused entry may stall the parser so that `'close'` never fires; neither is modelled.
- Paths follow Node's win32 `path` flavour, where `\` separates segments. On POSIX hosts `\` is part of a name (an entry `kcdutils\a\b` becomes one file named `a\b`, and `..\..` does not climb); that behaviour is not modelled. Drive letters and case-insensitive file names (on Windows `A.lua` and `a.lua` are one file, which changes what `Archive.ApplyFileContents`' last write means there) are not modelled either: the `Disk` compares names exactly.
- Command registration, `context.subscriptions`, `activate` and `deactivate` are left out: they only register the command.
- `vscode.openFolder` is the effect `OpenFolder`; what the editor does with it is left out.
