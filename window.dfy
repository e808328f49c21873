/**
 * The editor window's non-visual state: its settings manager, the background image list
 * and the index of the one on show, and the disk holding the memory log and the scaffold.
 *
 * Directory listings are a parameter: a map from each existing directory to the names
 * os.listdir gives for it, in the order it gives them.
 */
module Window {
  import opened Wrappers
  import opened FileSystem
  import opened Settings
  import opened Scaffold
  import opened Backgrounds

  /** The memory log, relative to the working directory. */
  const MemoryFile: Path := ["pangetyum.vtha"]

  const RecallTag: string := "\n[RECUERDO] "

  /** The block store_memory appends for one piece of text. */
  function MemoryBlock(data: string): (b: string)
    ensures |b| == |RecallTag| + |data| + 1
    ensures b[..|RecallTag|] == RecallTag && b[|b| - 1] == '\n'
  {
    RecallTag + data + "\n"
  }

  /** The text inside a block: what lies between the tag and the closing newline. */
  function Recalled(block: string): string
    requires |block| > |RecallTag|
  {
    block[|RecallTag|..|block| - 1]
  }

  /** A block gives back the text it was made from, so different texts make different blocks. */
  lemma RecalledBlock(data: string, other: string)
    ensures Recalled(MemoryBlock(data)) == data
    ensures MemoryBlock(data) == MemoryBlock(other) ==> data == other
  {
    var b := MemoryBlock(data);
    assert b[|RecallTag|..|b| - 1] == data;
    var c := MemoryBlock(other);
    assert c[|RecallTag|..|c| - 1] == other;
  }

  /** The log after store_memory has been called with each text in turn. */
  function Log(old_log: string, texts: seq<string>): string
    decreases |texts|
  {
    if texts == [] then old_log else Log(old_log + MemoryBlock(texts[0]), texts[1..])
  }

  /** The log only grows: what it held before is a prefix of what it holds after. */
  lemma {:induction false} LogGrows(old_log: string, texts: seq<string>)
    ensures old_log <= Log(old_log, texts)
    ensures |Log(old_log, texts)| >= |old_log| + |texts| * (|RecallTag| + 1)
    decreases |texts|
  {
    if texts != [] {
      var next := old_log + MemoryBlock(texts[0]);
      LogGrows(next, texts[1..]);
      assert old_log <= next;
    }
  }

  /** One call appends one block: Log over successive calls is what StoreMemory leaves. */
  lemma LogOne(old_log: string, text: string)
    ensures Log(old_log, [text]) == old_log + MemoryBlock(text)
  {
    assert [text][1..] == [];
  }

  /** Storing texts in two batches is storing them all in one. */
  lemma {:induction false} LogAppend(old_log: string, a: seq<string>, b: seq<string>)
    ensures Log(old_log, a + b) == Log(Log(old_log, a), b)
    decreases |a|
  {
    if a == [] {
      assert a + b == b;
    } else {
      assert (a + b)[1..] == a[1..] + b;
      LogAppend(old_log + MemoryBlock(a[0]), a[1..], b);
    }
  }

  /**
   * The settings values os.path.isdir takes without raising: a path string, or an integer
   * (a boolean is one) that fits a C int, taken as a file descriptor. A wider integer
   * raises OverflowError and any other value raises TypeError.
   */
  predicate PathArgument(v: Value) {
    v.Str? || v.Bool? || (v.Int? && -0x8000_0000 <= v.i < 0x8000_0000)
  }

  class TarantulaWindow {
    const settings: SettingsManager
    var backgrounds: seq<string>
    var bgIndex: int
    /** The file system the window works on. */
    var disk: Disk

    /** The index points into the list whenever there is a list, and is 0 when there is none. */
    predicate IndexInRange()
      reads this
    {
      0 <= bgIndex && (backgrounds == [] ==> bgIndex == 0) && (backgrounds != [] ==> bgIndex < |backgrounds|)
    }

    /**
     * The non-visual part of __init__: a settings manager on the settings file, an empty
     * list at index 0, load_backgrounds() and create_dark_site_structure().
     */
    constructor(onDisk: Option<Table>, listings: map<string, seq<string>>, d: Disk)
      ensures (settings.settings, settings.stored) == Loaded(Defaults(), onDisk)
      ensures bgIndex == 0 && IndexInRange()
      ensures var folder := Lookup(settings.settings, FondosDir, Str("fondos"));
        backgrounds == if folder.Str? && folder.s in listings then ImagePaths(folder.s, listings[folder.s]) else []
      ensures disk == if PathArgument(Lookup(settings.settings, FondosDir, Str("fondos")))
        then Run(d, Steps(DefaultBase)).disk else d
    {
      settings := new SettingsManager(SettingsFile, onDisk);
      backgrounds := [];
      bgIndex := 0;
      disk := d;
      new;
      var ok := LoadBackgrounds(listings);
      if ok {
        var r := CreateDarkSiteStructure(disk, DefaultBase);
        disk := r.disk;
      }
    }

    /**
     * load_backgrounds: when the folder named by the fondos_dir setting is a directory,
     * appends, in listing order, the path of every image name in it. A setting os.path.isdir
     * refuses makes the call raise (ok is false) before anything is appended; an integer
     * within C int range or a boolean is a file descriptor that names no directory, so
     * nothing is appended.
     */
    method LoadBackgrounds(listings: map<string, seq<string>>) returns (ok: bool)
      modifies this`backgrounds
      requires IndexInRange()
      ensures IndexInRange()
      ensures ok <==> PathArgument(settings.Get(FondosDir, Str("fondos")))
      ensures var folder := settings.Get(FondosDir, Str("fondos"));
        backgrounds == if folder.Str? && folder.s in listings
          then old(backgrounds) + ImagePaths(folder.s, listings[folder.s])
          else old(backgrounds)
    {
      var setting := settings.Get(FondosDir, Str("fondos"));
      if !PathArgument(setting) {
        return false;
      }
      ok := true;
      if setting.Str? && setting.s in listings {
        var folder := setting.s;
        var listing := listings[folder];
        for i := 0 to |listing|
          invariant backgrounds == old(backgrounds) + ImagePaths(folder, listing[..i])
          invariant IndexInRange()
        {
          var f := listing[i];
          ImagePathsSnoc(folder, listing[..i], f);
          assert listing[..i + 1] == listing[..i] + [f];
          if IsImageName(f) {
            backgrounds := backgrounds + [JoinName(folder, f)];
          }
        }
        assert listing[..|listing|] == listing;
      }
    }

    /** rotate_background: nothing on an empty list, otherwise the next index round the list. */
    method RotateBackground()
      modifies this`bgIndex
      requires IndexInRange()
      ensures IndexInRange()
      ensures bgIndex == NextIndex(old(bgIndex), |backgrounds|)
    {
      if backgrounds == [] {
        return;
      }
      bgIndex := (bgIndex + 1) % |backgrounds|;
    }

    /**
     * store_memory: opens the memory log for appending and writes the tagged block; the
     * call raises (ok is false, nothing written) when the log's path is a directory.
     */
    method StoreMemory(data: string) returns (ok: bool)
      modifies this`disk
      ensures ok <==> MemoryFile !in old(disk).dirs
      ensures ok ==> disk == old(disk).(files := old(disk).files[MemoryFile := Contents(old(disk), MemoryFile) + MemoryBlock(data)])
      ensures !ok ==> disk == old(disk)
      ensures Contents(old(disk), MemoryFile) <= Contents(disk, MemoryFile)
    {
      var r := AppendText(disk, MemoryFile, MemoryBlock(data));
      if r.None? {
        return false;
      }
      disk := r.value;
      ok := true;
    }

    /** set_scale_mode: stores the mode and writes the settings out. */
    method SetScaleMode(mode: string)
      modifies settings
      ensures settings.settings == old(settings.settings)[ScaleMode := Str(mode)]
      ensures settings.stored == Some(settings.settings) && settings.path == old(settings.path)
    {
      settings.Set(ScaleMode, Str(mode));
    }

    /**
     * set_custom_scale, given what the dialog returned: when confirmed, the mode becomes
     * "custom" and the factor is stored, each write persisting the table; when cancelled,
     * nothing changes.
     */
    method SetCustomScale(factor: real, confirmed: bool)
      modifies settings
      ensures confirmed ==> settings.settings == old(settings.settings)[ScaleMode := Str("custom")][CustomScale := Float(factor)]
      ensures confirmed ==> settings.stored == Some(settings.settings)
      ensures !confirmed ==> settings.settings == old(settings.settings) && settings.stored == old(settings.stored)
      ensures settings.path == old(settings.path)
    {
      if confirmed {
        settings.Set(ScaleMode, Str("custom"));
        settings.Set(CustomScale, Float(factor));
      }
    }
  }
}
