/**
 * Which directories and files the scaffold asks for: the twenty directories below the
 * base and the eighteen placeholder files, as fixed sets of paths relative to the base,
 * and what a run of the scaffold does to a disk in terms of them.
 */
module ScaffoldCensus {
  import opened FileSystem
  import opened Scaffold

  /** The first top-level folder and its sub-folders, relative to the base. */
  function MoscDirs(): set<Path> {
    {[Mosc], [Mosc, "VS-1"], [Mosc, "M1"], [Mosc, "CY1"]}
  }

  function MoscFiles(): set<Path> {
    {[Mosc, "VS-1", "GPT_BDK_1.BDK"], [Mosc, "VS-1", "GPT_BDK_2.BDK"],
     [Mosc, "M1", "GEMINI_BDK_1.BDK"], [Mosc, "M1", "GEMINI_BDK_2.BDK"],
     [Mosc, "CY1", "GROK_BDK_1.BDK"], [Mosc, "CY1", "GROK_BDK_2.BDK"]}
  }

  /** A sub-folder of the second top-level folder with its two nested folders. */
  function MisifusSubDirs(sub: string): set<Path> {
    {[Misifus, sub], [Misifus, sub, "LOGS_DIARIOS"], [Misifus, sub, "DIRECTRICES_Y_REGLAS_OPERATIVAS"]}
  }

  function MisifusSubFiles(sub: string, logName: string, rulesName: string): set<Path> {
    {[Misifus, sub, "PANGETYUM.VTHA"], [Misifus, sub, "MEMORIA ETERNA.VTHA"],
     [Misifus, sub, "LOGS_DIARIOS", logName], [Misifus, sub, "DIRECTRICES_Y_REGLAS_OPERATIVAS", rulesName]}
  }

  function MisifusDirs(): set<Path> {
    {[Misifus]} + MisifusSubDirs("VS00-1") + MisifusSubDirs("M1") + MisifusSubDirs("CY1")
  }

  function MisifusFiles(): set<Path> {
    MisifusSubFiles("VS00-1", "LOG_GPT_DIARIO.VTHA", "REGLAS_GPT.VTHA") +
    MisifusSubFiles("M1", "LOG_GEMINI_DIARIO.VTHA", "REGLAS_GEMINI.VTHA") +
    MisifusSubFiles("CY1", "LOG_GROK_DIARIO.VTHA", "REGLAS_GROK.VTHA")
  }

  function FairyDirs(): set<Path> {
    {[Fairy], [Fairy, "IMAGENES_DE_FONDO"], [Fairy, "CONFIGURACIONES_GENERALES"], [Fairy, "RUTAS_LINKS"],
     [Fairy, "GALERIAS"], [Fairy, "DOCS_GENERALES"]}
  }

  /** The twenty directories below the base: three top-level folders, eleven sub-folders, six nested folders. */
  function TreeDirs(): set<Path> {
    MoscDirs() + MisifusDirs() + FairyDirs()
  }

  /** The eighteen placeholder files, relative to the base. */
  function TreeFiles(): set<Path> {
    MoscFiles() + MisifusFiles()
  }

  // Splitting the listing of calls at the tree's own boundaries.

  lemma EntriesCons(dir: Path, e: Entry, rest: seq<Entry>)
    ensures EntrySteps(dir, [e] + rest) == EntryStep(dir, e) + EntrySteps(dir, rest)
  {
    assert ([e] + rest)[1..] == rest;
  }

  lemma BlockCons(parent: Path, sub: (string, seq<Entry>), rest: Block)
    ensures BlockSteps(parent, [sub] + rest) == SubSteps(parent, sub) + BlockSteps(parent, rest)
  {
    assert ([sub] + rest)[1..] == rest;
  }

  lemma TreeCons(base: Path, top: (string, Block), rest: Tree)
    ensures TreeSteps(base, [top] + rest) == BlockSteps(Join(base, top.0), top.1) + TreeSteps(base, rest)
  {
    assert ([top] + rest)[1..] == rest;
  }

  lemma FourEntries(dir: Path, a: Entry, b: Entry, c: Entry, e: Entry)
    ensures EntrySteps(dir, [a, b, c, e]) == EntryStep(dir, a) + (EntryStep(dir, b) + (EntryStep(dir, c) + EntryStep(dir, e)))
  {
    assert [a, b, c, e] == [a] + ([b] + ([c] + ([e] + [])));
    EntriesCons(dir, e, []);
    EntriesCons(dir, c, [e] + []);
    EntriesCons(dir, b, [c] + ([e] + []));
    EntriesCons(dir, a, [b] + ([c] + ([e] + [])));
    assert EntrySteps(dir, []) == [];
    assert EntryStep(dir, e) + [] == EntryStep(dir, e);
  }

  lemma ThreeSubs(parent: Path, a: (string, seq<Entry>), b: (string, seq<Entry>), c: (string, seq<Entry>))
    ensures BlockSteps(parent, [a, b, c]) == SubSteps(parent, a) + (SubSteps(parent, b) + SubSteps(parent, c))
  {
    assert [a, b, c] == [a] + ([b] + ([c] + []));
    BlockCons(parent, c, []);
    BlockCons(parent, b, [c] + []);
    BlockCons(parent, a, [b] + ([c] + []));
    assert BlockSteps(parent, []) == [];
    assert SubSteps(parent, c) + [] == SubSteps(parent, c);
  }

  lemma FiveSubs(parent: Path, a: (string, seq<Entry>), b: (string, seq<Entry>), c: (string, seq<Entry>),
                 e: (string, seq<Entry>), f: (string, seq<Entry>))
    ensures BlockSteps(parent, [a, b, c, e, f]) ==
      SubSteps(parent, a) + (SubSteps(parent, b) + (SubSteps(parent, c) + (SubSteps(parent, e) + SubSteps(parent, f))))
  {
    assert [a, b, c, e, f] == [a] + ([b] + ([c] + ([e] + ([f] + []))));
    BlockCons(parent, f, []);
    BlockCons(parent, e, [f] + []);
    BlockCons(parent, c, [e] + ([f] + []));
    BlockCons(parent, b, [c] + ([e] + ([f] + [])));
    BlockCons(parent, a, [b] + ([c] + ([e] + ([f] + []))));
    assert BlockSteps(parent, []) == [];
    assert SubSteps(parent, f) + [] == SubSteps(parent, f);
  }

  lemma ThreeTops(base: Path, a: (string, Block), b: (string, Block), c: (string, Block))
    ensures TreeSteps(base, [a, b, c]) ==
      BlockSteps(Join(base, a.0), a.1) + (BlockSteps(Join(base, b.0), b.1) + BlockSteps(Join(base, c.0), c.1))
  {
    assert [a, b, c] == [a] + ([b] + ([c] + []));
    TreeCons(base, c, []);
    TreeCons(base, b, [c] + []);
    TreeCons(base, a, [b] + ([c] + []));
    assert TreeSteps(base, []) == [];
    assert BlockSteps(Join(base, c.0), c.1) + [] == BlockSteps(Join(base, c.0), c.1);
  }

  // The same splits, as unions of what each piece asks for.

  lemma FourEntriesSets(dir: Path, a: Entry, b: Entry, c: Entry, e: Entry)
    ensures DirsOf(EntrySteps(dir, [a, b, c, e])) ==
      DirsOf(EntryStep(dir, a)) + DirsOf(EntryStep(dir, b)) + DirsOf(EntryStep(dir, c)) + DirsOf(EntryStep(dir, e))
    ensures FilesOf(EntrySteps(dir, [a, b, c, e])) ==
      FilesOf(EntryStep(dir, a)) + FilesOf(EntryStep(dir, b)) + FilesOf(EntryStep(dir, c)) + FilesOf(EntryStep(dir, e))
  {
    var sa, sb, sc, se := EntryStep(dir, a), EntryStep(dir, b), EntryStep(dir, c), EntryStep(dir, e);
    FourEntries(dir, a, b, c, e);
    DirsOfAppend(sc, se);
    DirsOfAppend(sb, sc + se);
    DirsOfAppend(sa, sb + (sc + se));
  }

  lemma ThreeSubsSets(parent: Path, a: (string, seq<Entry>), b: (string, seq<Entry>), c: (string, seq<Entry>))
    ensures DirsOf(BlockSteps(parent, [a, b, c])) ==
      DirsOf(SubSteps(parent, a)) + DirsOf(SubSteps(parent, b)) + DirsOf(SubSteps(parent, c))
    ensures FilesOf(BlockSteps(parent, [a, b, c])) ==
      FilesOf(SubSteps(parent, a)) + FilesOf(SubSteps(parent, b)) + FilesOf(SubSteps(parent, c))
  {
    var sa, sb, sc := SubSteps(parent, a), SubSteps(parent, b), SubSteps(parent, c);
    ThreeSubs(parent, a, b, c);
    DirsOfAppend(sb, sc);
    DirsOfAppend(sa, sb + sc);
  }

  lemma FiveSubsSets(parent: Path, a: (string, seq<Entry>), b: (string, seq<Entry>), c: (string, seq<Entry>),
                     e: (string, seq<Entry>), f: (string, seq<Entry>))
    ensures DirsOf(BlockSteps(parent, [a, b, c, e, f])) ==
      DirsOf(SubSteps(parent, a)) + DirsOf(SubSteps(parent, b)) + DirsOf(SubSteps(parent, c)) +
      DirsOf(SubSteps(parent, e)) + DirsOf(SubSteps(parent, f))
    ensures FilesOf(BlockSteps(parent, [a, b, c, e, f])) ==
      FilesOf(SubSteps(parent, a)) + FilesOf(SubSteps(parent, b)) + FilesOf(SubSteps(parent, c)) +
      FilesOf(SubSteps(parent, e)) + FilesOf(SubSteps(parent, f))
  {
    var sa, sb, sc := SubSteps(parent, a), SubSteps(parent, b), SubSteps(parent, c);
    var se, sf := SubSteps(parent, e), SubSteps(parent, f);
    FiveSubs(parent, a, b, c, e, f);
    FiveAppend(sa, sb, sc, se, sf);
  }

  lemma FiveAppend(sa: seq<Step>, sb: seq<Step>, sc: seq<Step>, se: seq<Step>, sf: seq<Step>)
    ensures DirsOf(sa + (sb + (sc + (se + sf)))) == DirsOf(sa) + DirsOf(sb) + DirsOf(sc) + DirsOf(se) + DirsOf(sf)
    ensures FilesOf(sa + (sb + (sc + (se + sf)))) == FilesOf(sa) + FilesOf(sb) + FilesOf(sc) + FilesOf(se) + FilesOf(sf)
  {
    DirsOfAppend(se, sf);
    DirsOfAppend(sc, se + sf);
    DirsOfAppend(sb, sc + (se + sf));
    DirsOfAppend(sa, sb + (sc + (se + sf)));
  }

  lemma ThreeTopsSets(base: Path, a: (string, Block), b: (string, Block), c: (string, Block))
    ensures DirsOf(TreeSteps(base, [a, b, c])) ==
      DirsOf(BlockSteps(Join(base, a.0), a.1)) + DirsOf(BlockSteps(Join(base, b.0), b.1)) + DirsOf(BlockSteps(Join(base, c.0), c.1))
    ensures FilesOf(TreeSteps(base, [a, b, c])) ==
      FilesOf(BlockSteps(Join(base, a.0), a.1)) + FilesOf(BlockSteps(Join(base, b.0), b.1)) + FilesOf(BlockSteps(Join(base, c.0), c.1))
  {
    var sa, sb, sc := BlockSteps(Join(base, a.0), a.1), BlockSteps(Join(base, b.0), b.1), BlockSteps(Join(base, c.0), c.1);
    ThreeTops(base, a, b, c);
    DirsOfAppend(sb, sc);
    DirsOfAppend(sa, sb + sc);
  }

  /** A sub-folder asks for itself, with its ancestors, and for what its items ask for. */
  lemma SubSets(parent: Path, sub: (string, seq<Entry>))
    ensures DirsOf(SubSteps(parent, sub)) == Ancestry(parent) + {Join(parent, sub.0)} + DirsOf(EntrySteps(Join(parent, sub.0), sub.1))
    ensures FilesOf(SubSteps(parent, sub)) == FilesOf(EntrySteps(Join(parent, sub.0), sub.1))
  {
    var q := Join(parent, sub.0);
    StepSets(EnsureDir(q));
    DirsOfAppend([EnsureDir(q)], EntrySteps(q, sub.1));
    AncestryJoin(parent, sub.0);
  }

  // What each kind of sub-folder asks for.

  lemma FileEntrySets(dir: Path, x: string)
    ensures DirsOf(EntryStep(dir, File(x))) == {} && FilesOf(EntryStep(dir, File(x))) == {Join(dir, x)}
  {
    StepSets(Touch(Join(dir, x)));
  }

  lemma FolderEntrySets(dir: Path, f: string, u: string)
    ensures DirsOf(EntryStep(dir, Folder(f, [u]))) == Ancestry(dir) + {Join(dir, f)}
    ensures FilesOf(EntryStep(dir, Folder(f, [u]))) == {Join(Join(dir, f), u)}
  {
    var w := Join(dir, f);
    assert [u][1..] == [];
    assert TouchSteps(w, [u]) == [Touch(Join(w, u))] + [];
    StepSets(EnsureDir(w));
    StepSets(Touch(Join(w, u)));
    DirsOfAppend([EnsureDir(w)], [Touch(Join(w, u))]);
    AncestryJoin(dir, f);
  }

  /** A sub-folder holding two plain files, as in the first top-level folder. */
  lemma TwoFilesSets(parent: Path, n: string, x: string, y: string)
    ensures DirsOf(SubSteps(parent, (n, [File(x), File(y)]))) == Ancestry(parent) + {Join(parent, n)}
    ensures FilesOf(SubSteps(parent, (n, [File(x), File(y)]))) == {Join(Join(parent, n), x), Join(Join(parent, n), y)}
  {
    var q := Join(parent, n);
    assert [File(x), File(y)] == [File(x)] + [File(y)];
    EntriesCons(q, File(x), [File(y)]);
    EntriesCons(q, File(y), []);
    assert [File(y)] + [] == [File(y)];
    assert EntrySteps(q, []) == [];
    FileEntrySets(q, x);
    FileEntrySets(q, y);
    DirsOfAppend(EntryStep(q, File(x)), EntryStep(q, File(y)) + []);
    assert EntryStep(q, File(y)) + [] == EntryStep(q, File(y));
    SubSets(parent, (n, [File(x), File(y)]));
  }

  /** A sub-folder of the second top-level folder: two files, two nested folders with one file each. */
  lemma MisifusSubJoinedDirs(parent: Path, n: string, logName: string, rulesName: string)
    ensures DirsOf(SubSteps(parent, (n, MisifusEntries(logName, rulesName)))) ==
      Ancestry(parent) + {Join(parent, n), Join(Join(parent, n), "LOGS_DIARIOS"), Join(Join(parent, n), "DIRECTRICES_Y_REGLAS_OPERATIVAS")}
  {
    var q := Join(parent, n);
    FourEntriesSets(q, File("PANGETYUM.VTHA"), File("MEMORIA ETERNA.VTHA"),
      Folder("LOGS_DIARIOS", [logName]), Folder("DIRECTRICES_Y_REGLAS_OPERATIVAS", [rulesName]));
    FileEntrySets(q, "PANGETYUM.VTHA");
    FileEntrySets(q, "MEMORIA ETERNA.VTHA");
    FolderEntrySets(q, "LOGS_DIARIOS", logName);
    FolderEntrySets(q, "DIRECTRICES_Y_REGLAS_OPERATIVAS", rulesName);
    SubSets(parent, (n, MisifusEntries(logName, rulesName)));
    AncestryJoin(parent, n);
  }

  lemma MisifusSubJoinedFiles(parent: Path, n: string, logName: string, rulesName: string)
    ensures FilesOf(SubSteps(parent, (n, MisifusEntries(logName, rulesName)))) ==
      {Join(Join(parent, n), "PANGETYUM.VTHA"), Join(Join(parent, n), "MEMORIA ETERNA.VTHA"),
       Join(Join(Join(parent, n), "LOGS_DIARIOS"), logName),
       Join(Join(Join(parent, n), "DIRECTRICES_Y_REGLAS_OPERATIVAS"), rulesName)}
  {
    var q := Join(parent, n);
    FourEntriesSets(q, File("PANGETYUM.VTHA"), File("MEMORIA ETERNA.VTHA"),
      Folder("LOGS_DIARIOS", [logName]), Folder("DIRECTRICES_Y_REGLAS_OPERATIVAS", [rulesName]));
    FileEntrySets(q, "PANGETYUM.VTHA");
    FileEntrySets(q, "MEMORIA ETERNA.VTHA");
    FolderEntrySets(q, "LOGS_DIARIOS", logName);
    FolderEntrySets(q, "DIRECTRICES_Y_REGLAS_OPERATIVAS", rulesName);
    SubSets(parent, (n, MisifusEntries(logName, rulesName)));
  }

  /** A sub-folder with nothing in it, as in the third top-level folder. */
  lemma EmptySubSets(parent: Path, n: string)
    ensures DirsOf(SubSteps(parent, (n, []))) == Ancestry(parent) + {Join(parent, n)}
    ensures FilesOf(SubSteps(parent, (n, []))) == {}
  {
    assert EntrySteps(Join(parent, n), []) == [];
    SubSets(parent, (n, []));
  }

  // What each top-level folder asks for, with the paths as the program joins them.

  lemma MoscBlockJoinedDirs(m: Path)
    ensures DirsOf(BlockSteps(m, MoscBlock())) == Ancestry(m) + {Join(m, "VS-1"), Join(m, "M1"), Join(m, "CY1")}
  {
    ThreeSubsSets(m, ("VS-1", [File("GPT_BDK_1.BDK"), File("GPT_BDK_2.BDK")]),
      ("M1", [File("GEMINI_BDK_1.BDK"), File("GEMINI_BDK_2.BDK")]),
      ("CY1", [File("GROK_BDK_1.BDK"), File("GROK_BDK_2.BDK")]));
    TwoFilesSets(m, "VS-1", "GPT_BDK_1.BDK", "GPT_BDK_2.BDK");
    TwoFilesSets(m, "M1", "GEMINI_BDK_1.BDK", "GEMINI_BDK_2.BDK");
    TwoFilesSets(m, "CY1", "GROK_BDK_1.BDK", "GROK_BDK_2.BDK");
  }

  lemma MoscBlockJoinedFiles(m: Path)
    ensures FilesOf(BlockSteps(m, MoscBlock())) ==
      {Join(Join(m, "VS-1"), "GPT_BDK_1.BDK"), Join(Join(m, "VS-1"), "GPT_BDK_2.BDK"),
       Join(Join(m, "M1"), "GEMINI_BDK_1.BDK"), Join(Join(m, "M1"), "GEMINI_BDK_2.BDK"),
       Join(Join(m, "CY1"), "GROK_BDK_1.BDK"), Join(Join(m, "CY1"), "GROK_BDK_2.BDK")}
  {
    ThreeSubsSets(m, ("VS-1", [File("GPT_BDK_1.BDK"), File("GPT_BDK_2.BDK")]),
      ("M1", [File("GEMINI_BDK_1.BDK"), File("GEMINI_BDK_2.BDK")]),
      ("CY1", [File("GROK_BDK_1.BDK"), File("GROK_BDK_2.BDK")]));
    TwoFilesSets(m, "VS-1", "GPT_BDK_1.BDK", "GPT_BDK_2.BDK");
    TwoFilesSets(m, "M1", "GEMINI_BDK_1.BDK", "GEMINI_BDK_2.BDK");
    TwoFilesSets(m, "CY1", "GROK_BDK_1.BDK", "GROK_BDK_2.BDK");
  }

  lemma FiveUnion(a: set<Path>, x1: Path, x2: Path, x3: Path, x4: Path, x5: Path)
    ensures (a + {x1}) + (a + {x2}) + (a + {x3}) + (a + {x4}) + (a + {x5}) == a + {x1, x2, x3, x4, x5}
  {
  }

  lemma FiveEmptySubsSets(f: Path, n1: string, n2: string, n3: string, n4: string, n5: string)
    ensures DirsOf(SubSteps(f, (n1, []))) + DirsOf(SubSteps(f, (n2, []))) + DirsOf(SubSteps(f, (n3, []))) +
      DirsOf(SubSteps(f, (n4, []))) + DirsOf(SubSteps(f, (n5, []))) ==
      Ancestry(f) + {Join(f, n1), Join(f, n2), Join(f, n3), Join(f, n4), Join(f, n5)}
    ensures FilesOf(SubSteps(f, (n1, []))) + FilesOf(SubSteps(f, (n2, []))) + FilesOf(SubSteps(f, (n3, []))) +
      FilesOf(SubSteps(f, (n4, []))) + FilesOf(SubSteps(f, (n5, []))) == {}
  {
    EmptySubSets(f, n1);
    EmptySubSets(f, n2);
    EmptySubSets(f, n3);
    EmptySubSets(f, n4);
    EmptySubSets(f, n5);
    FiveUnion(Ancestry(f), Join(f, n1), Join(f, n2), Join(f, n3), Join(f, n4), Join(f, n5));
  }

  lemma FairyBlockJoined(f: Path)
    ensures DirsOf(BlockSteps(f, FairyBlock())) == Ancestry(f) +
      {Join(f, "IMAGENES_DE_FONDO"), Join(f, "CONFIGURACIONES_GENERALES"), Join(f, "RUTAS_LINKS"), Join(f, "GALERIAS"), Join(f, "DOCS_GENERALES")}
    ensures FilesOf(BlockSteps(f, FairyBlock())) == {}
  {
    var subs := FairyBlock();
    FiveSubsSets(f, subs[0], subs[1], subs[2], subs[3], subs[4]);
    assert subs == [subs[0], subs[1], subs[2], subs[3], subs[4]];
    FiveEmptySubsSets(f, "IMAGENES_DE_FONDO", "CONFIGURACIONES_GENERALES", "RUTAS_LINKS", "GALERIAS", "DOCS_GENERALES");
  }

  // The same sets, with every path written as the base followed by its relative components.

  lemma MoscBlockDirs(base: Path)
    ensures DirsOf(BlockSteps(Join(base, Mosc), MoscBlock())) == Ancestry(base) + Under(base, MoscDirs())
  {
    MoscBlockJoinedDirs(Join(base, Mosc));
    AncestryJoin(base, Mosc);
    Joined2(base, Mosc, "VS-1");
    Joined2(base, Mosc, "M1");
    Joined2(base, Mosc, "CY1");
  }

  lemma MoscBlockFiles(base: Path)
    ensures FilesOf(BlockSteps(Join(base, Mosc), MoscBlock())) == Under(base, MoscFiles())
  {
    MoscBlockJoinedFiles(Join(base, Mosc));
    Joined3(base, Mosc, "VS-1", "GPT_BDK_1.BDK");
    Joined3(base, Mosc, "VS-1", "GPT_BDK_2.BDK");
    Joined3(base, Mosc, "M1", "GEMINI_BDK_1.BDK");
    Joined3(base, Mosc, "M1", "GEMINI_BDK_2.BDK");
    Joined3(base, Mosc, "CY1", "GROK_BDK_1.BDK");
    Joined3(base, Mosc, "CY1", "GROK_BDK_2.BDK");
  }

  lemma MisifusSubDirsNormal(base: Path, n: string, logName: string, rulesName: string)
    ensures DirsOf(SubSteps(Join(base, Misifus), (n, MisifusEntries(logName, rulesName)))) ==
      Ancestry(base) + Under(base, {[Misifus]} + MisifusSubDirs(n))
  {
    MisifusSubJoinedDirs(Join(base, Misifus), n, logName, rulesName);
    AncestryJoin(base, Misifus);
    Joined2(base, Misifus, n);
    Joined3(base, Misifus, n, "LOGS_DIARIOS");
    Joined3(base, Misifus, n, "DIRECTRICES_Y_REGLAS_OPERATIVAS");
  }

  lemma MisifusSubFilesNormal(base: Path, n: string, logName: string, rulesName: string)
    ensures FilesOf(SubSteps(Join(base, Misifus), (n, MisifusEntries(logName, rulesName)))) ==
      Under(base, MisifusSubFiles(n, logName, rulesName))
  {
    MisifusSubJoinedFiles(Join(base, Misifus), n, logName, rulesName);
    Joined3(base, Misifus, n, "PANGETYUM.VTHA");
    Joined3(base, Misifus, n, "MEMORIA ETERNA.VTHA");
    Joined4(base, Misifus, n, "LOGS_DIARIOS", logName);
    Joined4(base, Misifus, n, "DIRECTRICES_Y_REGLAS_OPERATIVAS", rulesName);
  }

  lemma ThreeUnder(base: Path, a: set<Path>, x: set<Path>, s0: set<Path>, s1: set<Path>, s2: set<Path>)
    ensures (a + Under(base, x + s0)) + (a + Under(base, x + s1)) + (a + Under(base, x + s2)) ==
      a + Under(base, x + s0 + s1 + s2)
    ensures Under(base, s0) + Under(base, s1) + Under(base, s2) == Under(base, s0 + s1 + s2)
  {
    UnderUnion(base, x, s0);
    UnderUnion(base, x, s1);
    UnderUnion(base, x, s2);
    UnderUnion(base, x + s0, s1);
    UnderUnion(base, x + s0 + s1, s2);
    UnderUnion(base, s0, s1);
    UnderUnion(base, s0 + s1, s2);
  }

  lemma MisifusBlockDirs(base: Path)
    ensures DirsOf(BlockSteps(Join(base, Misifus), MisifusBlock())) == Ancestry(base) + Under(base, MisifusDirs())
  {
    ThreeSubsSets(Join(base, Misifus), ("VS00-1", MisifusEntries("LOG_GPT_DIARIO.VTHA", "REGLAS_GPT.VTHA")),
      ("M1", MisifusEntries("LOG_GEMINI_DIARIO.VTHA", "REGLAS_GEMINI.VTHA")),
      ("CY1", MisifusEntries("LOG_GROK_DIARIO.VTHA", "REGLAS_GROK.VTHA")));
    MisifusSubDirsNormal(base, "VS00-1", "LOG_GPT_DIARIO.VTHA", "REGLAS_GPT.VTHA");
    MisifusSubDirsNormal(base, "M1", "LOG_GEMINI_DIARIO.VTHA", "REGLAS_GEMINI.VTHA");
    MisifusSubDirsNormal(base, "CY1", "LOG_GROK_DIARIO.VTHA", "REGLAS_GROK.VTHA");
    ThreeUnder(base, Ancestry(base), {[Misifus]}, MisifusSubDirs("VS00-1"), MisifusSubDirs("M1"), MisifusSubDirs("CY1"));
  }

  lemma MisifusBlockFiles(base: Path)
    ensures FilesOf(BlockSteps(Join(base, Misifus), MisifusBlock())) == Under(base, MisifusFiles())
  {
    ThreeSubsSets(Join(base, Misifus), ("VS00-1", MisifusEntries("LOG_GPT_DIARIO.VTHA", "REGLAS_GPT.VTHA")),
      ("M1", MisifusEntries("LOG_GEMINI_DIARIO.VTHA", "REGLAS_GEMINI.VTHA")),
      ("CY1", MisifusEntries("LOG_GROK_DIARIO.VTHA", "REGLAS_GROK.VTHA")));
    MisifusSubFilesNormal(base, "VS00-1", "LOG_GPT_DIARIO.VTHA", "REGLAS_GPT.VTHA");
    MisifusSubFilesNormal(base, "M1", "LOG_GEMINI_DIARIO.VTHA", "REGLAS_GEMINI.VTHA");
    MisifusSubFilesNormal(base, "CY1", "LOG_GROK_DIARIO.VTHA", "REGLAS_GROK.VTHA");
    ThreeUnder(base, {}, {}, MisifusSubFiles("VS00-1", "LOG_GPT_DIARIO.VTHA", "REGLAS_GPT.VTHA"),
      MisifusSubFiles("M1", "LOG_GEMINI_DIARIO.VTHA", "REGLAS_GEMINI.VTHA"),
      MisifusSubFiles("CY1", "LOG_GROK_DIARIO.VTHA", "REGLAS_GROK.VTHA"));
  }

  lemma FairyBlockDirs(base: Path)
    ensures DirsOf(BlockSteps(Join(base, Fairy), FairyBlock())) == Ancestry(base) + Under(base, FairyDirs())
    ensures FilesOf(BlockSteps(Join(base, Fairy), FairyBlock())) == {}
  {
    FairyBlockJoined(Join(base, Fairy));
    AncestryJoin(base, Fairy);
    Joined2(base, Fairy, "IMAGENES_DE_FONDO");
    Joined2(base, Fairy, "CONFIGURACIONES_GENERALES");
    Joined2(base, Fairy, "RUTAS_LINKS");
    Joined2(base, Fairy, "GALERIAS");
    Joined2(base, Fairy, "DOCS_GENERALES");
  }

  lemma UnderUnion(base: Path, a: set<Path>, b: set<Path>)
    ensures Under(base, a + b) == Under(base, a) + Under(base, b)
  {
  }

  /** The scaffold's calls split by top-level folder. */
  lemma StepsByFolder(base: Path)
    ensures DirsOf(Steps(base)) == Ancestry(base) + DirsOf(BlockSteps(Join(base, Mosc), MoscBlock())) +
      DirsOf(BlockSteps(Join(base, Misifus), MisifusBlock())) + DirsOf(BlockSteps(Join(base, Fairy), FairyBlock()))
    ensures FilesOf(Steps(base)) == FilesOf(BlockSteps(Join(base, Mosc), MoscBlock())) +
      FilesOf(BlockSteps(Join(base, Misifus), MisifusBlock())) + FilesOf(BlockSteps(Join(base, Fairy), FairyBlock()))
  {
    var tree := DarkSite();
    StepSets(EnsureDir(base));
    DirsOfAppend([EnsureDir(base)], TreeSteps(base, tree));
    ThreeTopsSets(base, tree[0], tree[1], tree[2]);
    assert tree == [tree[0], tree[1], tree[2]];
  }

  /** The scaffold asks for the base with its ancestors and the twenty directories below it, and for the eighteen files. */
  lemma StepsDirs(base: Path)
    ensures DirsOf(Steps(base)) == Ancestry(base) + Under(base, TreeDirs())
  {
    StepsByFolder(base);
    MoscBlockDirs(base);
    MisifusBlockDirs(base);
    FairyBlockDirs(base);
    UnderUnion(base, MoscDirs(), MisifusDirs());
    UnderUnion(base, MoscDirs() + MisifusDirs(), FairyDirs());
  }

  lemma StepsFiles(base: Path)
    ensures FilesOf(Steps(base)) == Under(base, TreeFiles())
  {
    StepsByFolder(base);
    MoscBlockFiles(base);
    MisifusBlockFiles(base);
    FairyBlockDirs(base);
    UnderUnion(base, MoscFiles(), MisifusFiles());
  }

  // The shape of the tree itself.

  /** Cardinality of a union of pieces told apart by the component at position k. */
  lemma CountByComponent(k: nat, a: set<Path>, b: set<Path>, y: string)
    requires forall r :: r in a ==> k < |r| && r[k] != y
    requires forall r :: r in b ==> k < |r| && r[k] == y
    ensures a !! b && |a + b| == |a| + |b|
  {
    assert a * b == {};
  }

  lemma MoscDirsCount()
    ensures |MoscDirs()| == 4 && forall r :: r in MoscDirs() ==> 0 < |r| && r[0] == Mosc
  {
  }

  lemma FairyDirsCount()
    ensures |FairyDirs()| == 6 && forall r :: r in FairyDirs() ==> 0 < |r| && r[0] == Fairy
  {
  }

  lemma MisifusSubDirsCount(sub: string)
    ensures |MisifusSubDirs(sub)| == 3
    ensures forall r :: r in MisifusSubDirs(sub) ==> 1 < |r| && r[0] == Misifus && r[1] == sub
  {
  }

  lemma MisifusDirsCount()
    ensures |MisifusDirs()| == 10 && forall r :: r in MisifusDirs() ==> 0 < |r| && r[0] == Misifus
  {
    var s0, s1, s2 := MisifusSubDirs("VS00-1"), MisifusSubDirs("M1"), MisifusSubDirs("CY1");
    MisifusSubDirsCount("VS00-1");
    MisifusSubDirsCount("M1");
    MisifusSubDirsCount("CY1");
    CountByComponent(1, s0, s1, "M1");
    CountByComponent(1, s0 + s1, s2, "CY1");
    assert [Misifus] !in s0 + s1 + s2;
  }

  lemma TreeDirsCount()
    ensures |TreeDirs()| == 20
  {
    MoscDirsCount();
    MisifusDirsCount();
    FairyDirsCount();
    CountByComponent(0, MoscDirs(), MisifusDirs(), Misifus);
    CountByComponent(0, MoscDirs() + MisifusDirs(), FairyDirs(), Fairy);
  }

  lemma MoscFilesCount()
    ensures |MoscFiles()| == 6 && forall r :: r in MoscFiles() ==> 0 < |r| && r[0] == Mosc
  {
  }

  lemma MisifusSubFilesCount(sub: string, logName: string, rulesName: string)
    ensures |MisifusSubFiles(sub, logName, rulesName)| == 4
    ensures forall r :: r in MisifusSubFiles(sub, logName, rulesName) ==> 1 < |r| && r[0] == Misifus && r[1] == sub
  {
  }

  lemma MisifusFilesCount()
    ensures |MisifusFiles()| == 12 && forall r :: r in MisifusFiles() ==> 0 < |r| && r[0] == Misifus
  {
    var s0 := MisifusSubFiles("VS00-1", "LOG_GPT_DIARIO.VTHA", "REGLAS_GPT.VTHA");
    var s1 := MisifusSubFiles("M1", "LOG_GEMINI_DIARIO.VTHA", "REGLAS_GEMINI.VTHA");
    var s2 := MisifusSubFiles("CY1", "LOG_GROK_DIARIO.VTHA", "REGLAS_GROK.VTHA");
    MisifusSubFilesCount("VS00-1", "LOG_GPT_DIARIO.VTHA", "REGLAS_GPT.VTHA");
    MisifusSubFilesCount("M1", "LOG_GEMINI_DIARIO.VTHA", "REGLAS_GEMINI.VTHA");
    MisifusSubFilesCount("CY1", "LOG_GROK_DIARIO.VTHA", "REGLAS_GROK.VTHA");
    CountByComponent(1, s0, s1, "M1");
    CountByComponent(1, s0 + s1, s2, "CY1");
  }

  lemma TreeFilesCount()
    ensures |TreeFiles()| == 18
  {
    MoscFilesCount();
    MisifusFilesCount();
    CountByComponent(0, MoscFiles(), MisifusFiles(), Misifus);
  }

  /** The directory paths are at most three names long, and a three-name one ends in a nested folder name. */
  predicate DirShape(r: Path) {
    0 < |r| <= 3 && (|r| == 3 ==> r[2] == "LOGS_DIARIOS" || r[2] == "DIRECTRICES_Y_REGLAS_OPERATIVAS")
  }

  /** The file paths are at least three names long, and a three-name one ends in a file name. */
  predicate FileShape(r: Path) {
    3 <= |r| && (|r| == 3 ==> r[2] != "LOGS_DIARIOS" && r[2] != "DIRECTRICES_Y_REGLAS_OPERATIVAS")
  }

  lemma MisifusSubShapes(sub: string, logName: string, rulesName: string)
    ensures forall r :: r in MisifusSubDirs(sub) ==> DirShape(r)
    ensures forall r :: r in MisifusSubFiles(sub, logName, rulesName) ==> FileShape(r)
  {
  }

  lemma TreeDirsShape()
    ensures forall r :: r in TreeDirs() ==> DirShape(r)
  {
    MisifusSubShapes("VS00-1", "", "");
    MisifusSubShapes("M1", "", "");
    MisifusSubShapes("CY1", "", "");
  }

  lemma TreeFilesShape()
    ensures forall r :: r in TreeFiles() ==> FileShape(r)
  {
    MisifusSubShapes("VS00-1", "LOG_GPT_DIARIO.VTHA", "REGLAS_GPT.VTHA");
    MisifusSubShapes("M1", "LOG_GEMINI_DIARIO.VTHA", "REGLAS_GEMINI.VTHA");
    MisifusSubShapes("CY1", "LOG_GROK_DIARIO.VTHA", "REGLAS_GROK.VTHA");
  }

  /** No path of the tree is asked for both as a directory and as a file, and none is empty. */
  lemma TreeSeparate()
    ensures TreeDirs() !! TreeFiles()
    ensures forall r :: r in TreeDirs() ==> r != []
    ensures forall r :: r in TreeFiles() ==> r != []
  {
    TreeDirsShape();
    TreeFilesShape();
    forall r | r in TreeDirs() ensures r !in TreeFiles() {
      assert DirShape(r);
    }
  }

  // What create_dark_site_structure(base) does to a disk, stated on the census above.

  /** The tree's census in the form the run lemmas take, with the concrete sets left abstract. */
  predicate Census(base: Path, steps: seq<Step>, dirs: set<Path>, files: set<Path>) {
    DirsOf(steps) == Ancestry(base) + Under(base, dirs) && FilesOf(steps) == Under(base, files) &&
    dirs !! files && (forall r :: r in dirs ==> r != []) && (forall r :: r in files ==> r != []) &&
    (NoEmptyPath(steps) <==> base != [])
  }

  lemma ScaffoldCensusHolds(base: Path)
    ensures Census(base, Steps(base), TreeDirs(), TreeFiles())
  {
    StepsDirs(base);
    StepsFiles(base);
    TreeSeparate();
    StepsNamedIff(base);
  }

  lemma CensusCounts(base: Path, steps: seq<Step>, dirs: set<Path>, files: set<Path>)
    requires Census(base, steps, dirs, files)
    ensures |DirsOf(steps)| == |base| + |dirs| && |FilesOf(steps)| == |files|
  {
    UnderSeparates(base, {}, dirs);
    AncestryCount(base);
    UnderCount(base, dirs);
    UnderCount(base, files);
  }

  lemma CensusSucceedsIff(d: Disk, base: Path, steps: seq<Step>, dirs: set<Path>, files: set<Path>)
    requires Census(base, steps, dirs, files)
    ensures Run(d, steps).Done? <==>
      base != [] && (Ancestry(base) + Under(base, dirs)) !! d.files.Keys && Under(base, files) !! d.dirs
  {
    UnderSeparates(base, dirs, files);
    RunSucceedsIff(d, steps);
  }

  /** The scaffold asks for the base, its ancestors and twenty directories below it, and for eighteen files. */
  lemma ScaffoldFootprint(base: Path)
    ensures DirsOf(Steps(base)) == Ancestry(base) + Under(base, TreeDirs())
    ensures FilesOf(Steps(base)) == Under(base, TreeFiles())
    ensures |DirsOf(Steps(base))| == |base| + 20 && |FilesOf(Steps(base))| == 18
  {
    ScaffoldCensusHolds(base);
    CensusCounts(base, Steps(base), TreeDirs(), TreeFiles());
    TreeDirsCount();
    TreeFilesCount();
  }

  /**
   * The scaffold completes exactly when the base is not empty, no directory it needs is
   * already a file, and no placeholder it needs is already a directory.
   */
  lemma ScaffoldSucceedsIff(d: Disk, base: Path)
    ensures Run(d, Steps(base)).Done? <==>
      base != [] && (Ancestry(base) + Under(base, TreeDirs())) !! d.files.Keys && Under(base, TreeFiles()) !! d.dirs
  {
    ScaffoldCensusHolds(base);
    CensusSucceedsIff(d, base, Steps(base), TreeDirs(), TreeFiles());
  }
  /** After a complete run the base and every directory and placeholder of the tree exist below it. */
  lemma ScaffoldBuildsTree(d: Disk, base: Path)
    requires Run(d, Steps(base)).Done?
    ensures base in Run(d, Steps(base)).disk.dirs
    ensures forall r :: r in TreeDirs() ==> base + r in Run(d, Steps(base)).disk.dirs
    ensures forall r :: r in TreeFiles() ==> base + r in Run(d, Steps(base)).disk.files
  {
    ScaffoldSucceedsIff(d, base);
    StepsDirs(base);
    StepsFiles(base);
    RunCompleteHasAll(d, Steps(base));
    AncestryIff(base);
    assert base[..|base|] == base;
  }

  /**
   * Whether or not it completes, the scaffold only adds directories and empty files of the
   * tree (and the base's ancestors), and leaves every existing file's contents as they were.
   */
  lemma ScaffoldOnlyAdds(d: Disk, base: Path)
    ensures d.dirs <= Run(d, Steps(base)).disk.dirs <= d.dirs + Ancestry(base) + Under(base, TreeDirs())
    ensures d.files.Keys <= Run(d, Steps(base)).disk.files.Keys <= d.files.Keys + Under(base, TreeFiles())
    ensures forall p :: p in d.files ==> Run(d, Steps(base)).disk.files[p] == d.files[p]
    ensures forall p :: p in Run(d, Steps(base)).disk.files && p !in d.files ==> Run(d, Steps(base)).disk.files[p] == ""
  {
    StepsDirs(base);
    StepsFiles(base);
    RunOnlyAdds(d, Steps(base));
  }

  /** Running the scaffold again on the disk it left changes nothing and ends the same way. */
  lemma ScaffoldIdempotent(d: Disk, base: Path)
    ensures Run(Run(d, Steps(base)).disk, Steps(base)) == Run(d, Steps(base))
  {
    RunIdempotent(d, Steps(base));
  }
}
