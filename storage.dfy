/**
 * The `storage` object of src/services/api.js: a string-keyed store (the
 * browser's localStorage) holding the baseline key set, the new-signal ledger
 * and the alert settings. JSON text is not modelled: a cell holds the value
 * JSON.parse would give back, or says why it would give none.
 */
module Storage {
  import opened Common
  import opened Records

  /** The JSON values the dashboard keeps. */
  datatype Value =
    | Count(n: int)
    | Keys(keys: seq<string>)
    | Ledger(entries: seq<LedgerEntry>)
    | Config(settings: Settings)

  /** What localStorage holds under a key: the empty string, text JSON.parse rejects, or a parsed value. */
  datatype Cell = Blank | Garbled | Json(value: Value)

  const CountKey := "newSignalsCount"
  const PairsKey := "newSignalPairs"
  const BaselineKey := "baselinePairs"
  const SettingsKey := "alertsSettings"

  /** The settings getAlertSettings falls back to. */
  const DefaultSettings := Settings(7.0, 50.0, 0.7, 5.0, "low")

  /**
   * storage.get: the parsed value under `key`, or `default` when the key is
   * missing, holds "", cannot be parsed, or localStorage cannot be read.
   */
  function Read(cells: map<string, Cell>, readable: bool, key: string, default: Value): Value
  {
    if readable && key in cells && cells[key].Json? then cells[key].value else default
  }

  /** storage.set: overwrites `key`; when localStorage refuses the write nothing changes and nothing is thrown. */
  function Write(cells: map<string, Cell>, writable: bool, key: string, v: Value): map<string, Cell>
  {
    if writable then cells[key := Json(v)] else cells
  }

  /** `!localStorage.getItem(key)` is false: the key holds a non-empty string. */
  predicate HasItem(cells: map<string, Cell>, key: string)
  {
    key in cells && !cells[key].Blank?
  }

  /**
   * getNewSignalsCount. `get` hands back a value of another JSON shape as it
   * is; only the badge shows the count, and the model reads such a value as 0.
   */
  function NewSignalsCountOf(cells: map<string, Cell>, readable: bool): int
  {
    match Read(cells, readable, CountKey, Count(0))
    case Count(n) => n
    case _ => 0
  }

  /**
   * getNewSignalPairs. An array of another element type yields no entry
   * flagged new from the upload, so it reads as the empty ledger here; a
   * number or an object cannot be iterated (see NotIterable).
   */
  function NewSignalPairsOf(cells: map<string, Cell>, readable: bool): seq<LedgerEntry>
  {
    match Read(cells, readable, PairsKey, Ledger([]))
    case Ledger(entries) => entries
    case _ => []
  }

  /**
   * getBaselinePairs: `new Set(array)`, so duplicates collapse. An array of
   * entries holds no key string, so it reads as the empty set; a number or an
   * object makes `new Set` throw (see NotIterable).
   */
  function BaselineOf(cells: map<string, Cell>, readable: bool): set<string>
  {
    match Read(cells, readable, BaselineKey, Keys([]))
    case Keys(keys) => set k | k in keys
    case _ => {}
  }

  /**
   * getAlertSettings. A value of another shape has none of the settings'
   * fields, so every `||` fallback of the rule engine applies: it behaves as
   * the defaults.
   */
  function AlertSettingsOf(cells: map<string, Cell>, readable: bool): Settings
  {
    match Read(cells, readable, SettingsKey, Config(DefaultSettings))
    case Config(s) => s
    case _ => DefaultSettings
  }

  /**
   * The value stored under `key` is a number or an object, which `forEach`
   * and `new Set` cannot iterate: reading it as a list throws a TypeError.
   */
  predicate NotIterable(cells: map<string, Cell>, readable: bool, key: string)
  {
    readable && key in cells && cells[key].Json? && (cells[key].value.Count? || cells[key].value.Config?)
  }

  /** A read returns the default whenever the key is missing, blank or unparsable, or the store cannot be read. */
  lemma ReadFallsBack(cells: map<string, Cell>, readable: bool, key: string, default: Value)
    ensures !readable || !HasItem(cells, key) ==> Read(cells, readable, key, default) == default
    ensures key in cells && cells[key] == Garbled ==> Read(cells, readable, key, default) == default
    ensures readable && key in cells && cells[key].Json? ==> Read(cells, readable, key, default) == cells[key].value
  {
  }

  /** A write that succeeds is read back; a failed write leaves the store as it was. */
  lemma WriteThenRead(cells: map<string, Cell>, writable: bool, key: string, v: Value, default: Value)
    ensures writable ==> Read(Write(cells, writable, key, v), true, key, default) == v
    ensures !writable ==> Write(cells, writable, key, v) == cells
  {
  }

  /** A write touches its own key only. */
  lemma WriteFrame(cells: map<string, Cell>, writable: bool, key: string, v: Value, other: string)
    requires other != key
    ensures (other in Write(cells, writable, key, v)) == (other in cells)
    ensures other in cells ==> Write(cells, writable, key, v)[other] == cells[other]
  {
  }

  /** An empty or unreadable store yields the defaults: count 0, no pairs, empty baseline, default settings. */
  lemma Defaults(cells: map<string, Cell>, readable: bool)
    requires !readable || cells == map[]
    ensures NewSignalsCountOf(cells, readable) == 0
    ensures NewSignalPairsOf(cells, readable) == []
    ensures BaselineOf(cells, readable) == {}
    ensures AlertSettingsOf(cells, readable) == Settings(7.0, 50.0, 0.7, 5.0, "low")
  {
  }

  /** setBaselinePairs then getBaselinePairs gives back the same keys, duplicates collapsed. */
  lemma BaselineRoundTrip(cells: map<string, Cell>, pairs: seq<string>)
    ensures forall k :: k in BaselineOf(Write(cells, true, BaselineKey, Keys(pairs)), true) <==> k in pairs
  {
  }

  /** Each named setter leaves what the other getters read unchanged. */
  lemma SettersAreIndependent(cells: map<string, Cell>, writable: bool, readable: bool, key: string, v: Value)
    ensures key != CountKey ==>
      NewSignalsCountOf(Write(cells, writable, key, v), readable) == NewSignalsCountOf(cells, readable)
    ensures key != PairsKey ==>
      NewSignalPairsOf(Write(cells, writable, key, v), readable) == NewSignalPairsOf(cells, readable)
    ensures key != BaselineKey ==>
      BaselineOf(Write(cells, writable, key, v), readable) == BaselineOf(cells, readable)
    ensures key != SettingsKey ==>
      AlertSettingsOf(Write(cells, writable, key, v), readable) == AlertSettingsOf(cells, readable)
  {
  }

  /** The four keys of the engine are different strings. */
  lemma KeysDiffer()
    ensures CountKey != PairsKey && CountKey != BaselineKey && CountKey != SettingsKey
    ensures PairsKey != BaselineKey && PairsKey != SettingsKey && BaselineKey != SettingsKey
  {
    assert CountKey[3] == 'S' && PairsKey[3] == 'S' && BaselineKey[3] == 'e' && SettingsKey[3] == 'r';
    assert CountKey[9] == 's' && PairsKey[9] == 'P';
  }

  /**
   * The localStorage the dashboard writes through. `readable` is false when
   * getItem throws, `writable` is false when setItem throws (storage
   * unavailable or quota exceeded).
   */
  class Store {
    var cells: map<string, Cell>
    var readable: bool
    var writable: bool

    constructor (cells: map<string, Cell>, readable: bool, writable: bool)
      ensures this.cells == cells && this.readable == readable && this.writable == writable
    {
      this.cells := cells;
      this.readable := readable;
      this.writable := writable;
    }

    function Get(key: string, default: Value): Value
      reads this
    {
      Read(cells, readable, key, default)
    }

    method Set(key: string, value: Value)
      modifies this
      ensures cells == Write(old(cells), writable, key, value)
      ensures readable == old(readable) && writable == old(writable)
    {
      if writable {
        cells := cells[key := Json(value)];
      }
    }

    function GetNewSignalsCount(): int
      reads this
    {
      NewSignalsCountOf(cells, readable)
    }

    method SetNewSignalsCount(count: int)
      modifies this
      ensures cells == Write(old(cells), writable, CountKey, Count(count))
      ensures readable == old(readable) && writable == old(writable)
    {
      Set(CountKey, Count(count));
    }

    function GetNewSignalPairs(): seq<LedgerEntry>
      reads this
    {
      NewSignalPairsOf(cells, readable)
    }

    method SetNewSignalPairs(pairs: seq<LedgerEntry>)
      modifies this
      ensures cells == Write(old(cells), writable, PairsKey, Ledger(pairs))
      ensures readable == old(readable) && writable == old(writable)
    {
      Set(PairsKey, Ledger(pairs));
    }

    function GetBaselinePairs(): set<string>
      reads this
    {
      BaselineOf(cells, readable)
    }

    /** setBaselinePairs(Array.from(pairs)): the keys in their iteration order. */
    method SetBaselinePairs(pairs: seq<string>)
      modifies this
      ensures cells == Write(old(cells), writable, BaselineKey, Keys(pairs))
      ensures readable == old(readable) && writable == old(writable)
    {
      Set(BaselineKey, Keys(pairs));
    }

    function GetAlertSettings(): Settings
      reads this
    {
      AlertSettingsOf(cells, readable)
    }

    method SetAlertSettings(settings: Settings)
      modifies this
      ensures cells == Write(old(cells), writable, SettingsKey, Config(settings))
      ensures readable == old(readable) && writable == old(writable)
    {
      Set(SettingsKey, Config(settings));
    }
  }
}
