# Torre de Marfil: the editor's non-visual core, in Dafny

Torre de Marfil is a PyQt text editor, `torre_marfil_enhanced.py`. Most of the program builds widgets. This project models the parts of it that keep state or touch the disk:

- **`SettingsManager`**: a table of settings. It starts from three defaults, is overlaid with the settings file `config.vtha` (or writes that file when it is missing), and writes the whole table back on every `set`.
- **`create_dark_site_structure`**: the "DARK SITE" scaffolder. With `makedirs(..., exist_ok=True)` and append-mode opens it ensures a fixed tree exists under a base directory: three top-level folders, twenty directories below the base, and eighteen empty placeholder files.
- **the window's background list**: `load_backgrounds` keeps the `.png`/`.jpg`/`.jpeg` names of a folder listing, in listing order. `rotate_background` advances a cyclic index.
- **the memory log**: `store_memory` appends a tagged block to `pangetyum.vtha`.
- **the settings writes** done by `set_scale_mode` and `set_custom_scale`.

Modules:

- `Wrappers`: `Option`.
- `FileSystem`: an abstract disk, made of a set of directory paths and a map from file paths to contents. It has `makedirs` and append-mode `open`, runs of such calls that stop at the first one that raises, and general lemmas about those runs.
- `Scaffold`: the fixed tree as data, the calls the scaffolder makes (`Steps`), and the scaffolder's nested loops as methods proved equal to running those calls.
- `ScaffoldCensus`: exactly which directories and files the scaffold asks for, how many there are, and what it does to any disk.
- `Settings`: `SettingsManager` as a class over a `map<string, Value>`, with the file kept as the table it decodes to.
- `Backgrounds`: the image-name test, the listing filter, path joining and the rotation index.
- `Window`: `TarantulaWindow`'s non-visual state and the methods that change it, plus the memory-log block.

Paths are sequences of components, so `os.path.join(a, b)` is `a + [b]`. The one exception is the background list, which stores the joined strings the program builds.

Directory listings (`os.path.isdir`/`os.listdir`) and the dialog's answer are parameters of the methods that use them. The settings file is a field (`stored`) holding the table it decodes to, `None` when there is no file.

## Model

| member | source | states |
|---|---|---|
| FileSystem.MakeDirs | torre_marfil_enhanced.py:15 | `makedirs(p, exist_ok=True)` succeeds exactly when p is not empty and no ancestor-or-self of p is a file. On success it adds every ancestor-or-self of p as a directory and leaves files alone. |
| FileSystem.AppendText | torre_marfil_enhanced.py:25 | An append-mode open succeeds exactly when the path is not empty and not a directory. It creates a missing file. The old contents stay a prefix, followed by exactly the text written. Other files are unchanged. |
| FileSystem.AncestryIff | torre_marfil_enhanced.py:15 | The directories `makedirs` creates are exactly the non-empty prefixes of the path. |
| FileSystem.AncestryCount | torre_marfil_enhanced.py:15 | A path has as many ancestors-or-self as it has components. |
| FileSystem.UnderCount | torre_marfil_enhanced.py:16 | Joining a set of relative paths to a base keeps them distinct, so their number is unchanged. |
| FileSystem.UnderSeparates | torre_marfil_enhanced.py:16 | Disjoint relative paths stay disjoint under a base. A non-empty relative path is never an ancestor of the base. |
| FileSystem.RunOnlyAdds | torre_marfil_enhanced.py:15-60 | A run of makedirs/append calls, complete or stopped by a raise, only adds what its steps name. Existing files keep their contents and new files are empty. |
| FileSystem.RunCompleteHasAll | torre_marfil_enhanced.py:15-60 | After a complete run, every directory and file the steps name exists. |
| FileSystem.RunIdempotent | torre_marfil_enhanced.py:15-60 | Running the same calls again on the disk a run left changes nothing and ends the same way. |
| FileSystem.RunSucceedsIff | torre_marfil_enhanced.py:15-60 | A run whose steps never name one path as both a directory and a file completes exactly when no path is empty, no named directory is a file on the disk, and no named file is a directory on it. |
| FileSystem.RunAppend | torre_marfil_enhanced.py:15-60 | Running a + b is running a and then, unless a raised, running b. |
| FileSystem.HoldsIsFixpoint | torre_marfil_enhanced.py:15 | A call whose effect already holds leaves the disk exactly as it is (ignore-if-exists). |
| FileSystem.NoEmptyPathAppend | torre_marfil_enhanced.py:15-60 | Calls split in two name no empty path exactly when neither part does. |
| Scaffold.TouchAll | torre_marfil_enhanced.py:24-25 | The innermost loop of appends equals running its calls in order and stops at the first that raises. |
| Scaffold.CreateEntry | torre_marfil_enhanced.py:49-57 | A tuple item makes its folder and touches its files. A plain item touches one file. Either way the result equals running those calls. |
| Scaffold.CreateEntries | torre_marfil_enhanced.py:49-57 | The loop over a sub-folder's items equals running their calls in order. |
| Scaffold.CreateBlock | torre_marfil_enhanced.py:17-25 | The loop over a top-level folder's sub-folders (makedirs, then the items) equals running their calls in order. |
| Scaffold.CreateTree | torre_marfil_enhanced.py:15-60 | The base makedirs followed by each top-level folder's block equals running all the calls in order. |
| Scaffold.CreateDarkSiteStructure | torre_marfil_enhanced.py:13-60 | `create_dark_site_structure(base)` equals running `Steps(base)`, the program's calls in the program's order. |
| Scaffold.TreeStepsAppend | torre_marfil_enhanced.py:17-60 | The calls for a tree split in two are the calls for each part, in order. |
| Scaffold.StepsNamedIff | torre_marfil_enhanced.py:13-60 | The scaffolder passes an empty path only when its base is empty. |
| ScaffoldCensus.StepsDirs | torre_marfil_enhanced.py:15-60 | The scaffold asks for exactly the base with its ancestors and the twenty fixed directories below it. |
| ScaffoldCensus.StepsFiles | torre_marfil_enhanced.py:24-57 | The scaffold asks for exactly the eighteen fixed placeholder files below the base. |
| ScaffoldCensus.TreeDirsCount | torre_marfil_enhanced.py:17-60 | The fixed tree has 20 distinct directories below the base. |
| ScaffoldCensus.TreeFilesCount | torre_marfil_enhanced.py:17-57 | The fixed tree has 18 distinct placeholder files. |
| ScaffoldCensus.TreeSeparate | torre_marfil_enhanced.py:17-60 | No path of the tree is both a directory and a file, and none is empty. |
| ScaffoldCensus.ScaffoldFootprint | torre_marfil_enhanced.py:13-60 | The exact directory and file sets of the scaffold. Their sizes are 20 directories plus one per component of the base (the base, its ancestors and the tree) and 18 files. |
| ScaffoldCensus.ScaffoldSucceedsIff | torre_marfil_enhanced.py:13-60 | The scaffold completes exactly when the base is not empty, none of its directories is already a file, and none of its placeholders is already a directory. |
| ScaffoldCensus.ScaffoldBuildsTree | torre_marfil_enhanced.py:13-60 | After a complete run the base, all twenty directories and all eighteen files exist under it. |
| ScaffoldCensus.ScaffoldOnlyAdds | torre_marfil_enhanced.py:13-60 | Whether it completes or raises, the scaffold adds only tree paths and the base's ancestors. Existing files keep their contents (append mode never truncates) and new files are empty. |
| ScaffoldCensus.ScaffoldIdempotent | torre_marfil_enhanced.py:13-60 | Running the scaffold twice leaves the same disk and outcome as running it once. |
| ScaffoldCensus.CensusSucceedsIff | torre_marfil_enhanced.py:13-60 | For any calls with a known census, completion is equivalent to the base being non-empty and the disk not clashing with the census. |
| Settings.Defaults | torre_marfil_enhanced.py:68-72 | The defaults are exactly `fondos_dir: "fondos"`, `bg_scale_mode: "expand"` and `bg_custom_scale: 1.0`. |
| Settings.Overlay | torre_marfil_enhanced.py:78 | `dict.update`: the keys are the union. A key of the file takes the file's value, and every other key keeps its own. |
| Settings.OverlayLookup | torre_marfil_enhanced.py:78 | Looking a key up after an update looks in the file's table first, then in the old table. |
| Settings.Loaded | torre_marfil_enhanced.py:75-80 | `load` always leaves a file. An existing file is overlaid on the table and left as it was. A missing file is written from the table. |
| Settings.FreshWithoutFile | torre_marfil_enhanced.py:66-80 | A manager started with no file holds exactly the three defaults, and the file it writes holds exactly them. |
| Settings.StartedOnFile | torre_marfil_enhanced.py:66-80 | A manager started on a file has every key of the file with the file's value, unknown keys included, and every default key the file lacks with its default. |
| Settings.LoadedTwice | torre_marfil_enhanced.py:75-80 | Loading again from the file the first load left changes nothing. |
| Settings.LookupStore | torre_marfil_enhanced.py:86-91 | After storing v at k, reading k gives v and reading any other key gives what it gave before. |
| Settings.SettingsManager.constructor | torre_marfil_enhanced.py:66-73 | A new manager on path holds the defaults after `load` against the file found there. |
| Settings.SettingsManager.Load | torre_marfil_enhanced.py:75-80 | The table and the file afterwards are as `Loaded` describes. |
| Settings.SettingsManager.Save | torre_marfil_enhanced.py:82-84 | The file afterwards holds exactly the table, and the table is unchanged. |
| Settings.SettingsManager.Get | torre_marfil_enhanced.py:86-87 | Returns the key's value when the key is present, otherwise the caller's default. It reads only. |
| Settings.SettingsManager.Set | torre_marfil_enhanced.py:89-91 | Only the one key changes. Reading it back gives the new value, every other key reads as before, and the file holds the whole new table. |
| Backgrounds.IsImageName | torre_marfil_enhanced.py:182 | A name is an image when its lower-cased form ends in `.png`, `.jpg` or `.jpeg`. |
| Backgrounds.ImageNameIgnoresCase | torre_marfil_enhanced.py:182 | Whether a name is an image does not depend on letter case. |
| Backgrounds.UpperExtensions | torre_marfil_enhanced.py:182 | `X.PNG` and `X.Jpeg` are images for every stem X. |
| Backgrounds.ImageByExtension | torre_marfil_enhanced.py:182 | Any name ending in an extension that lower-cases to one of the three is an image. |
| Backgrounds.NotImageUnlessG | torre_marfil_enhanced.py:182 | A name whose last letter is not a g or G is not an image (so `notes.txt` and `photo.png.bak` are not). |
| Backgrounds.ImageNamesMember | torre_marfil_enhanced.py:181-182 | The filter keeps a name exactly when it is listed and is an image name. |
| Backgrounds.ImageNamesAppend | torre_marfil_enhanced.py:181-183 | The filter keeps listing order: filtering a concatenation is concatenating the filtered parts. |
| Backgrounds.ImageNamesShrinks | torre_marfil_enhanced.py:181-183 | The filter never lengthens a listing, and filtering twice is filtering once. |
| Backgrounds.JoinNameKeepsName | torre_marfil_enhanced.py:183 | `os.path.join(folder, f)` ends in f, so an image name gives an image path. |
| Backgrounds.InFolder | torre_marfil_enhanced.py:183 | Joining keeps the number and the order of the names: entry i is `join(folder, names[i])`. |
| Backgrounds.ImagePathsSnoc | torre_marfil_enhanced.py:181-183 | One more listed name adds its joined path at the end exactly when it is an image name. |
| Backgrounds.ImagePathsComplete | torre_marfil_enhanced.py:181-183 | Every listed image name gives its joined path, and every path added is an image path. |
| Backgrounds.NextIndex | torre_marfil_enhanced.py:185-188 | On an empty list the index is unchanged. Otherwise the new index is in [0, n): one more, or 0 after the last. |
| Backgrounds.RotatedSteps | torre_marfil_enhanced.py:185-188 | Before the end of the list, k rotations move the index k places. |
| Backgrounds.RotatedAdd | torre_marfil_enhanced.py:185-188 | a + b rotations are a rotations followed by b rotations. |
| Backgrounds.FullCircle | torre_marfil_enhanced.py:185-188 | n rotations of an n-image list return every index to where it was, and no fewer return it earlier. |
| Window.MemoryBlock | torre_marfil_enhanced.py:240-242 | The appended block starts with the `\n[RECUERDO] ` tag, ends with a newline, and is 13 characters longer than the text. |
| Window.RecalledBlock | torre_marfil_enhanced.py:240-242 | The text can be read back from its block, so different texts give different blocks. |
| Window.LogGrows | torre_marfil_enhanced.py:240-242 | Over any sequence of stores the old log stays a prefix and grows by at least 13 characters per call. |
| Window.LogOne | torre_marfil_enhanced.py:240-242 | One store appends exactly one block. |
| Window.LogAppend | torre_marfil_enhanced.py:240-242 | Storing two batches of texts in turn is storing them all in order. |
| Window.TarantulaWindow.constructor | torre_marfil_enhanced.py:117-127 | The settings are as loaded. The list holds exactly the image paths of the background folder's listing, at index 0. When `load_backgrounds` raises on the `fondos_dir` setting, the scaffold is not run and the disk is unchanged. Otherwise the disk is the one the scaffold run leaves. |
| Window.TarantulaWindow.LoadBackgrounds | torre_marfil_enhanced.py:178-183 | The call raises exactly when the `fondos_dir` setting is not a string, a boolean, or an integer within C `int` range (a wider integer raises `OverflowError`). When the setting names a directory, the list becomes the old list followed by its image paths in listing order. Otherwise the list is unchanged. The index stays in range. |
| Window.TarantulaWindow.RotateBackground | torre_marfil_enhanced.py:185-189 | The index becomes `NextIndex(old index, n)` and stays in range. |
| Window.TarantulaWindow.StoreMemory | torre_marfil_enhanced.py:240-242 | Succeeds unless the log path is a directory. Then the log becomes the old contents followed by the tagged block, and nothing else changes. |
| Window.TarantulaWindow.SetScaleMode | torre_marfil_enhanced.py:229-231 | Stores the mode under `bg_scale_mode` and writes the table out. |
| Window.TarantulaWindow.SetCustomScale | torre_marfil_enhanced.py:233-238 | On a confirmed dialog: mode `custom` and the factor are stored and written out. On cancel: nothing changes. |

## Left out

- Widgets, menus, the syntax highlighter, timers, `paintEvent`'s scaling and centering, `open_file`/`save_file`, `run_gpt_prompt`'s editor output, and the slogan colour cycling. These are GUI calls with no state of their own. `run_gpt_prompt` stores its prompt through `store_memory`, which is modelled.
- `load_memory`: it only appends the log's text to the editor.
- JSON text: the settings file is the table it decodes to. A malformed file (where `json.load` raises) is not modelled. JSON integers, floats, booleans and strings are kept apart; lists and objects are opaque. The scale factor is a `real` that is only stored, never computed with.
- The dialog's bounds (0.1 to 10.0, one decimal) and its initial value: the factor arrives as a parameter.
- Backgrounds.Lower: lower-cases ASCII letters only; Python's `str.lower` also folds non-ASCII letters.
- Backgrounds.JoinName: models POSIX `os.path.join` (`posixpath.join`, separator `/`) for a name without a leading slash, which is what a directory listing gives. The Windows `ntpath.join` separator `\` is not modelled.
- Window.TarantulaWindow.LoadBackgrounds: a boolean or C-`int`-range integer `fondos_dir` is taken by `os.path.isdir` as a file descriptor. The model assumes it never refers to an open directory, so `ok` is true and nothing is appended. A descriptor that did name a directory would reach `os.path.join` with an integer and raise there.
- Window.TarantulaWindow.constructor: when `load_backgrounds` raises (a `fondos_dir` that is null, a float, a list, an object, or an integer outside C `int` range), the model skips the scaffold as `__init__` does, but returns an object instead of raising. When the scaffold itself raises part-way, the model keeps the partly built disk; the raise out of `__init__` is not modelled.
- FileSystem.AppendText: the parent-directory check of `open` is not modelled. In the scaffold every file's parent has just been made.
- The settings file `config.vtha` is kept apart from the modelled disk. It is the `stored` field of the manager, not an entry of `Disk`.
- Unicode normalisation of the folder names: names are compared as they are spelled.
