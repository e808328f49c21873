/**
 * The editor's settings: a flat table from names to values, started from three defaults,
 * overlaid with what the settings file holds, and written back whole on every change.
 *
 * The file is kept as the table it decodes to (None when there is no file), so the JSON
 * text and its encoding are not part of the model.
 */
module Settings {
  import opened Wrappers

  /** A JSON value as the table holds it; lists and objects are kept opaque. */
  datatype Value = Str(s: string) | Int(i: int) | Float(x: real) | Bool(b: bool) | Null | Other(tag: nat)

  type Table = map<string, Value>

  const SettingsFile: string := "config.vtha"

  const FondosDir: string := "fondos_dir"
  const ScaleMode: string := "bg_scale_mode"
  const CustomScale: string := "bg_custom_scale"

  /** The table a manager starts from before it reads its file. */
  function Defaults(): (t: Table)
    ensures t.Keys == {FondosDir, ScaleMode, CustomScale}
    ensures t[FondosDir] == Str("fondos") && t[ScaleMode] == Str("expand") && t[CustomScale] == Float(1.0)
  {
    map[FondosDir := Str("fondos"), ScaleMode := Str("expand"), CustomScale := Float(1.0)]
  }

  /** dict.update: every key of top takes top's value, every other key of base keeps its own. */
  function Overlay(base: Table, top: Table): (r: Table)
    ensures r.Keys == base.Keys + top.Keys
    ensures forall k :: k in top ==> r[k] == top[k]
    ensures forall k :: k in base && k !in top ==> r[k] == base[k]
  {
    base + top
  }

  /** dict.get(key, default). */
  function Lookup(t: Table, key: string, default: Value): Value {
    if key in t then t[key] else default
  }

  /** Looking a key up in an overlay looks in the top table first and falls back to the base. */
  lemma OverlayLookup(base: Table, top: Table, key: string, default: Value)
    ensures Lookup(Overlay(base, top), key, default) == Lookup(top, key, Lookup(base, key, default))
  {
  }

  /** Overlaying a table with itself, or with a part of itself, changes nothing. */
  lemma OverlayAbsorbs(base: Table, top: Table)
    requires forall k :: k in top ==> k in base && base[k] == top[k]
    ensures Overlay(base, top) == base
  {
  }

  /** Storing a value and reading the same key back gives the value; other keys read as before. */
  lemma LookupStore(t: Table, key: string, value: Value, other: string, default: Value)
    ensures Lookup(t[key := value], key, default) == value
    ensures other != key ==> Lookup(t[key := value], other, default) == Lookup(t, other, default)
  {
  }

  /**
   * What load() leaves, as (settings in memory, settings file): an existing file is overlaid
   * on the table and left alone; a missing one is written from the table.
   */
  function Loaded(current: Table, stored: Option<Table>): (r: (Table, Option<Table>))
    ensures r.1.Some?
    ensures stored.Some? ==> r == (Overlay(current, stored.value), stored)
    ensures stored.None? ==> r.1.value == r.0 == current
  {
    match stored
    case Some(t) => (current + t, stored)
    case None => (current, Some(current))
  }

  /** A manager started with no settings file holds exactly the defaults, and writes exactly them. */
  lemma FreshWithoutFile()
    ensures Loaded(Defaults(), None) == (Defaults(), Some(Defaults()))
    ensures Loaded(Defaults(), None).0.Keys == {FondosDir, ScaleMode, CustomScale}
  {
  }

  /**
   * A manager started on an existing file takes every value the file holds, unknown keys
   * included, and keeps the default of every key the file leaves out.
   */
  lemma StartedOnFile(file: Table, key: string, default: Value)
    ensures Loaded(Defaults(), Some(file)).0.Keys == Defaults().Keys + file.Keys
    ensures key in file ==> Lookup(Loaded(Defaults(), Some(file)).0, key, default) == file[key]
    ensures key !in file ==> Lookup(Loaded(Defaults(), Some(file)).0, key, default) == Lookup(Defaults(), key, default)
  {
    OverlayLookup(Defaults(), file, key, default);
  }

  /** Loading a second time from the file the first load left changes nothing. */
  lemma LoadedTwice(current: Table, stored: Option<Table>)
    ensures Loaded(Loaded(current, stored).0, Loaded(current, stored).1) == Loaded(current, stored)
  {
    var (t, f) := Loaded(current, stored);
    OverlayAbsorbs(t, f.value);
  }

  /** The settings table and the file it is kept in. */
  class SettingsManager {
    var path: string
    var settings: Table
    /** The table the settings file at path decodes to, None when there is no such file. */
    var stored: Option<Table>

    /** SettingsManager(path): the defaults, then load() against the file found at path. */
    constructor(path: string, onDisk: Option<Table>)
      ensures this.path == path
      ensures (settings, stored) == Loaded(Defaults(), onDisk)
    {
      this.path := path;
      settings := Defaults();
      stored := onDisk;
      new;
      Load();
    }

    method Load()
      modifies this
      ensures path == old(path)
      ensures (settings, stored) == Loaded(old(settings), old(stored))
    {
      if stored.Some? {
        settings := settings + stored.value;
      } else {
        Save();
      }
    }

    /** Writes the whole table out, replacing whatever the file held. */
    method Save()
      modifies this
      ensures path == old(path) && settings == old(settings)
      ensures stored == Some(settings)
    {
      stored := Some(settings);
    }

    /** get(key, default) reads the table and changes nothing. */
    function Get(key: string, default: Value): (v: Value)
      reads this
      ensures key in settings ==> v == settings[key]
      ensures key !in settings ==> v == default
    {
      Lookup(settings, key, default)
    }

    /** set(key, value) stores one value and then writes the whole table out. */
    method Set(key: string, value: Value)
      modifies this
      ensures path == old(path)
      ensures settings == old(settings)[key := value]
      ensures stored == Some(settings)
      ensures Get(key, Null) == value
      ensures forall k :: k != key ==> Lookup(settings, k, Null) == Lookup(old(settings), k, Null)
    {
      settings := settings[key := value];
      Save();
    }
  }
}
