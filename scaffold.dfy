/**
 * The "DARK SITE" scaffold: a fixed tree of directories and empty placeholder files,
 * created under a base directory with ignore-if-exists semantics.
 *
 * The tree is kept as data, in the order the program lists it: three top-level folders,
 * each holding sub-folders. The sub-folders of the first two hold placeholder files and,
 * in the second folder, nested folders with one file each; those of the third are empty. The scaffolder walks it with nested loops; the
 * function Steps lists, in the same order, the makedirs and open-for-append calls it makes.
 */
module Scaffold {
  import opened FileSystem

  /** An item inside a sub-folder: a placeholder file, or a nested folder with its placeholder files. */
  datatype Entry = File(name: string) | Folder(name: string, files: seq<string>)

  /** A top-level folder's contents: its sub-folders in order, each with its items. */
  type Block = seq<(string, seq<Entry>)>

  /** The whole scaffold: the top-level folders in order, each with its sub-folders. */
  type Tree = seq<(string, Block)>

  /** The three top-level folders (their names are kept exactly as the program spells them). */
  const Mosc: string := "MOSC√ö PANDA XL.BDK"
  const Misifus: string := "MISIF√öS FUMADOX.VTHA"
  const Fairy: string := "FAIRY BLACK"

  /** The base the window passes: create_dark_site_structure's default argument. */
  const DefaultBase: Path := ["DARK SITE"]

  function MoscBlock(): Block {
    [ ("VS-1", [File("GPT_BDK_1.BDK"), File("GPT_BDK_2.BDK")]),
      ("M1", [File("GEMINI_BDK_1.BDK"), File("GEMINI_BDK_2.BDK")]),
      ("CY1", [File("GROK_BDK_1.BDK"), File("GROK_BDK_2.BDK")]) ]
  }

  /** The items of each sub-folder of the second top-level folder: two files and two nested folders with one file each. */
  function MisifusEntries(logName: string, rulesName: string): seq<Entry> {
    [File("PANGETYUM.VTHA"), File("MEMORIA ETERNA.VTHA"),
     Folder("LOGS_DIARIOS", [logName]), Folder("DIRECTRICES_Y_REGLAS_OPERATIVAS", [rulesName])]
  }

  function MisifusBlock(): Block {
    [ ("VS00-1", MisifusEntries("LOG_GPT_DIARIO.VTHA", "REGLAS_GPT.VTHA")),
      ("M1", MisifusEntries("LOG_GEMINI_DIARIO.VTHA", "REGLAS_GEMINI.VTHA")),
      ("CY1", MisifusEntries("LOG_GROK_DIARIO.VTHA", "REGLAS_GROK.VTHA")) ]
  }

  function FairyBlock(): Block {
    [ ("IMAGENES_DE_FONDO", []), ("CONFIGURACIONES_GENERALES", []), ("RUTAS_LINKS", []),
      ("GALERIAS", []), ("DOCS_GENERALES", []) ]
  }

  function DarkSite(): Tree {
    [(Mosc, MoscBlock()), (Misifus, MisifusBlock()), (Fairy, FairyBlock())]
  }

  // The calls the scaffolder makes, level by level.

  function TouchSteps(dir: Path, names: seq<string>): seq<Step> {
    if names == [] then [] else [Touch(Join(dir, names[0]))] + TouchSteps(dir, names[1..])
  }

  function EntryStep(dir: Path, e: Entry): seq<Step> {
    match e
    case File(n) => [Touch(Join(dir, n))]
    case Folder(n, fs) => [EnsureDir(Join(dir, n))] + TouchSteps(Join(dir, n), fs)
  }

  function EntrySteps(dir: Path, entries: seq<Entry>): seq<Step> {
    if entries == [] then [] else EntryStep(dir, entries[0]) + EntrySteps(dir, entries[1..])
  }

  function SubSteps(parent: Path, sub: (string, seq<Entry>)): seq<Step> {
    [EnsureDir(Join(parent, sub.0))] + EntrySteps(Join(parent, sub.0), sub.1)
  }

  function BlockSteps(parent: Path, block: Block): seq<Step> {
    if block == [] then [] else SubSteps(parent, block[0]) + BlockSteps(parent, block[1..])
  }

  function TreeSteps(base: Path, tree: Tree): seq<Step> {
    if tree == [] then [] else BlockSteps(Join(base, tree[0].0), tree[0].1) + TreeSteps(base, tree[1..])
  }

  /** Every call create_dark_site_structure(base) makes, in order. */
  function Steps(base: Path): seq<Step> {
    [EnsureDir(base)] + TreeSteps(base, DarkSite())
  }

  // Splitting each level at a boundary, for the loop invariants below.

  lemma {:induction false} TouchStepsAppend(dir: Path, a: seq<string>, b: seq<string>)
    ensures TouchSteps(dir, a + b) == TouchSteps(dir, a) + TouchSteps(dir, b)
    decreases a
  {
    if a == [] {
      assert a + b == b;
    } else {
      assert (a + b)[1..] == a[1..] + b;
      TouchStepsAppend(dir, a[1..], b);
    }
  }

  lemma {:induction false} EntryStepsAppend(dir: Path, a: seq<Entry>, b: seq<Entry>)
    ensures EntrySteps(dir, a + b) == EntrySteps(dir, a) + EntrySteps(dir, b)
    decreases a
  {
    if a == [] {
      assert a + b == b;
    } else {
      assert (a + b)[1..] == a[1..] + b;
      EntryStepsAppend(dir, a[1..], b);
    }
  }

  lemma {:induction false} BlockStepsAppend(parent: Path, a: Block, b: Block)
    ensures BlockSteps(parent, a + b) == BlockSteps(parent, a) + BlockSteps(parent, b)
    decreases a
  {
    if a == [] {
      assert a + b == b;
    } else {
      assert (a + b)[1..] == a[1..] + b;
      BlockStepsAppend(parent, a[1..], b);
    }
  }

  lemma {:induction false} TreeStepsAppend(base: Path, a: Tree, b: Tree)
    ensures TreeSteps(base, a + b) == TreeSteps(base, a) + TreeSteps(base, b)
    decreases a
  {
    if a == [] {
      assert a + b == b;
    } else {
      assert (a + b)[1..] == a[1..] + b;
      TreeStepsAppend(base, a[1..], b);
    }
  }

  lemma TouchStepsAt(dir: Path, names: seq<string>, i: nat)
    requires i < |names|
    ensures TouchSteps(dir, names[..i + 1]) == TouchSteps(dir, names[..i]) + [Touch(Join(dir, names[i]))]
    ensures TouchSteps(dir, names) == TouchSteps(dir, names[..i + 1]) + TouchSteps(dir, names[i + 1..])
  {
    assert names[..i + 1] == names[..i] + [names[i]];
    assert names == names[..i + 1] + names[i + 1..];
    assert [names[i]][1..] == [];
    TouchStepsAppend(dir, names[..i], [names[i]]);
    TouchStepsAppend(dir, names[..i + 1], names[i + 1..]);
  }

  lemma EntryStepsAt(dir: Path, entries: seq<Entry>, i: nat)
    requires i < |entries|
    ensures EntrySteps(dir, entries[..i + 1]) == EntrySteps(dir, entries[..i]) + EntryStep(dir, entries[i])
    ensures EntrySteps(dir, entries) == EntrySteps(dir, entries[..i + 1]) + EntrySteps(dir, entries[i + 1..])
  {
    assert entries[..i + 1] == entries[..i] + [entries[i]];
    assert entries == entries[..i + 1] + entries[i + 1..];
    assert [entries[i]][1..] == [];
    assert EntryStep(dir, entries[i]) + [] == EntryStep(dir, entries[i]);
    EntryStepsAppend(dir, entries[..i], [entries[i]]);
    EntryStepsAppend(dir, entries[..i + 1], entries[i + 1..]);
  }

  lemma BlockStepsAt(parent: Path, block: Block, i: nat)
    requires i < |block|
    ensures BlockSteps(parent, block[..i + 1]) == BlockSteps(parent, block[..i]) + SubSteps(parent, block[i])
    ensures BlockSteps(parent, block) == BlockSteps(parent, block[..i + 1]) + BlockSteps(parent, block[i + 1..])
  {
    assert block[..i + 1] == block[..i] + [block[i]];
    assert block == block[..i + 1] + block[i + 1..];
    assert [block[i]][1..] == [];
    assert SubSteps(parent, block[i]) + [] == SubSteps(parent, block[i]);
    BlockStepsAppend(parent, block[..i], [block[i]]);
    BlockStepsAppend(parent, block[..i + 1], block[i + 1..]);
  }

  lemma TreeStepsAt(base: Path, tree: Tree, i: nat)
    requires i < |tree|
    ensures TreeSteps(base, tree[..i + 1]) == TreeSteps(base, tree[..i]) + BlockSteps(Join(base, tree[i].0), tree[i].1)
    ensures TreeSteps(base, tree) == TreeSteps(base, tree[..i + 1]) + TreeSteps(base, tree[i + 1..])
  {
    assert tree[..i + 1] == tree[..i] + [tree[i]];
    assert tree == tree[..i + 1] + tree[i + 1..];
    assert [tree[i]][1..] == [];
    assert BlockSteps(Join(base, tree[i].0), tree[i].1) + [] == BlockSteps(Join(base, tree[i].0), tree[i].1);
    TreeStepsAppend(base, tree[..i], [tree[i]]);
    TreeStepsAppend(base, tree[..i + 1], tree[i + 1..]);
  }

  // Below the base every call names a path one component longer than its parent, so only the
  // very first makedirs(base) can be handed the empty path.

  lemma {:induction false} TouchStepsNamed(dir: Path, names: seq<string>)
    ensures NoEmptyPath(TouchSteps(dir, names))
    decreases names
  {
    if names != [] {
      TouchStepsNamed(dir, names[1..]);
      NoEmptyPathAppend([Touch(Join(dir, names[0]))], TouchSteps(dir, names[1..]));
    }
  }

  lemma EntryStepNamed(dir: Path, e: Entry)
    ensures NoEmptyPath(EntryStep(dir, e))
  {
    if e.Folder? {
      TouchStepsNamed(Join(dir, e.name), e.files);
      NoEmptyPathAppend([EnsureDir(Join(dir, e.name))], TouchSteps(Join(dir, e.name), e.files));
    }
  }

  lemma {:induction false} EntryStepsNamed(dir: Path, entries: seq<Entry>)
    ensures NoEmptyPath(EntrySteps(dir, entries))
    decreases entries
  {
    if entries != [] {
      EntryStepNamed(dir, entries[0]);
      EntryStepsNamed(dir, entries[1..]);
      NoEmptyPathAppend(EntryStep(dir, entries[0]), EntrySteps(dir, entries[1..]));
    }
  }

  lemma SubStepsNamed(parent: Path, sub: (string, seq<Entry>))
    ensures NoEmptyPath(SubSteps(parent, sub))
  {
    EntryStepsNamed(Join(parent, sub.0), sub.1);
    NoEmptyPathAppend([EnsureDir(Join(parent, sub.0))], EntrySteps(Join(parent, sub.0), sub.1));
  }

  lemma {:induction false} BlockStepsNamed(parent: Path, block: Block)
    ensures NoEmptyPath(BlockSteps(parent, block))
    decreases block
  {
    if block != [] {
      SubStepsNamed(parent, block[0]);
      BlockStepsNamed(parent, block[1..]);
      NoEmptyPathAppend(SubSteps(parent, block[0]), BlockSteps(parent, block[1..]));
    }
  }

  lemma {:induction false} TreeStepsNamed(base: Path, tree: Tree)
    ensures NoEmptyPath(TreeSteps(base, tree))
    decreases tree
  {
    if tree != [] {
      BlockStepsNamed(Join(base, tree[0].0), tree[0].1);
      TreeStepsNamed(base, tree[1..]);
      NoEmptyPathAppend(BlockSteps(Join(base, tree[0].0), tree[0].1), TreeSteps(base, tree[1..]));
    }
  }

  /** The scaffolder hands an empty path to the file system exactly when its base is empty. */
  lemma StepsNamedIff(base: Path)
    ensures NoEmptyPath(Steps(base)) <==> base != []
  {
    TreeStepsNamed(base, DarkSite());
    NoEmptyPathAppend([EnsureDir(base)], TreeSteps(base, DarkSite()));
    assert [EnsureDir(base)][0].path == base;
  }

  /**
   * The innermost loop: open(join(dir, fname), 'a').close() for each name in turn,
   * stopping at the first that raises.
   */
  method TouchAll(disk: Disk, dir: Path, names: seq<string>) returns (r: Outcome)
    ensures r == Run(disk, TouchSteps(dir, names))
  {
    var d := disk;
    for i := 0 to |names|
      invariant Run(disk, TouchSteps(dir, names[..i])) == Done(d)
    {
      TouchStepsAt(dir, names, i);
      RunContinues(disk, TouchSteps(dir, names[..i]), [Touch(Join(dir, names[i]))], d);
      RunOne(d, Touch(Join(dir, names[i])));
      var next := AppendText(d, Join(dir, names[i]), "");
      if next.None? {
        RunStops(disk, TouchSteps(dir, names[..i + 1]), TouchSteps(dir, names[i + 1..]));
        return Failed(d);
      }
      d := next.value;
    }
    assert names[..|names|] == names;
    r := Done(d);
  }

  /**
   * The loop over a sub-folder's items: a nested folder is made and its files touched,
   * a plain name is touched.
   */
  method CreateEntries(disk: Disk, dir: Path, entries: seq<Entry>) returns (r: Outcome)
    ensures r == Run(disk, EntrySteps(dir, entries))
  {
    var d := disk;
    for i := 0 to |entries|
      invariant Run(disk, EntrySteps(dir, entries[..i])) == Done(d)
    {
      EntryStepsAt(dir, entries, i);
      RunContinues(disk, EntrySteps(dir, entries[..i]), EntryStep(dir, entries[i]), d);
      var step := CreateEntry(d, dir, entries[i]);
      if step.Failed? {
        RunStops(disk, EntrySteps(dir, entries[..i + 1]), EntrySteps(dir, entries[i + 1..]));
        return step;
      }
      d := step.disk;
    }
    assert entries[..|entries|] == entries;
    r := Done(d);
  }

  /** One item: `if isinstance(item, tuple)` makes the nested folder and touches its files, otherwise the name is touched. */
  method CreateEntry(disk: Disk, dir: Path, e: Entry) returns (r: Outcome)
    ensures r == Run(disk, EntryStep(dir, e))
  {
    match e
    case Folder(folder, files) =>
      var folderPath := Join(dir, folder);
      RunCons(disk, EnsureDir(folderPath), TouchSteps(folderPath, files));
      var made := MakeDirs(disk, folderPath);
      if made.None? {
        return Failed(disk);
      }
      r := TouchAll(made.value, folderPath, files);
    case File(name) =>
      RunOne(disk, Touch(Join(dir, name)));
      var next := AppendText(disk, Join(dir, name), "");
      r := if next.None? then Failed(disk) else Done(next.value);
  }

  /** The loop over one top-level folder's sub-folders: each is made, then its items created. */
  method CreateBlock(disk: Disk, parent: Path, block: Block) returns (r: Outcome)
    ensures r == Run(disk, BlockSteps(parent, block))
  {
    var d := disk;
    for i := 0 to |block|
      invariant Run(disk, BlockSteps(parent, block[..i])) == Done(d)
    {
      BlockStepsAt(parent, block, i);
      RunContinues(disk, BlockSteps(parent, block[..i]), SubSteps(parent, block[i]), d);
      var (sub, entries) := block[i];
      var subPath := Join(parent, sub);
      RunCons(d, EnsureDir(subPath), EntrySteps(subPath, entries));
      var made := MakeDirs(d, subPath);
      var step: Outcome;
      if made.None? {
        step := Failed(d);
      } else {
        step := CreateEntries(made.value, subPath, entries);
      }
      if step.Failed? {
        RunStops(disk, BlockSteps(parent, block[..i + 1]), BlockSteps(parent, block[i + 1..]));
        return step;
      }
      d := step.disk;
    }
    assert block[..|block|] == block;
    r := Done(d);
  }

  /**
   * create_dark_site_structure(base): the base directory, then each top-level folder's
   * sub-folders and their items, in the order the tree lists them.
   */
  method CreateDarkSiteStructure(disk: Disk, base: Path) returns (r: Outcome)
    ensures r == Run(disk, Steps(base))
  {
    r := CreateTree(disk, base, DarkSite());
  }

  /** The body of create_dark_site_structure, for any tree of the same shape. */
  method CreateTree(disk: Disk, base: Path, tree: Tree) returns (r: Outcome)
    ensures r == Run(disk, [EnsureDir(base)] + TreeSteps(base, tree))
  {
    RunCons(disk, EnsureDir(base), TreeSteps(base, tree));
    var made := MakeDirs(disk, base);
    if made.None? {
      return Failed(disk);
    }
    var start := made.value;
    var d := start;
    for i := 0 to |tree|
      invariant Run(start, TreeSteps(base, tree[..i])) == Done(d)
    {
      TreeStepsAt(base, tree, i);
      var (top, block) := tree[i];
      RunContinues(start, TreeSteps(base, tree[..i]), BlockSteps(Join(base, top), block), d);
      var step := CreateBlock(d, Join(base, top), block);
      if step.Failed? {
        RunStops(start, TreeSteps(base, tree[..i + 1]), TreeSteps(base, tree[i + 1..]));
        return step;
      }
      d := step.disk;
    }
    assert tree[..|tree|] == tree;
    r := Done(d);
  }
}
