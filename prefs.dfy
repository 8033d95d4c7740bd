/**
 * The durable key-value store the mixers persist to, held in memory.
 * Each key holds one typed value, as the engine's store does.
 */
module Prefs {

  datatype PrefValue = FloatPref(f: real) | IntPref(i: int)

  type Store = map<string, PrefValue>

  /** Reading a float: the stored float, or 0 when the key is missing or holds an int. */
  function FloatAt(m: Store, key: string): (r: real)
    ensures key in m && m[key].FloatPref? ==> r == m[key].f
    ensures !(key in m && m[key].FloatPref?) ==> r == 0.0
  {
    if key in m && m[key].FloatPref? then m[key].f else 0.0
  }

  /** Reading an int: the stored int, or 0 when the key is missing or holds a float. */
  function IntAt(m: Store, key: string): (r: int)
    ensures key in m && m[key].IntPref? ==> r == m[key].i
    ensures !(key in m && m[key].IntPref?) ==> r == 0
  {
    if key in m && m[key].IntPref? then m[key].i else 0
  }

  /** The store object shared by every component that persists settings. */
  class PlayerPrefs {
    var entries: Store

    constructor (initial: Store)
      ensures entries == initial
    {
      entries := initial;
    }

    predicate HasKey(key: string)
      reads this
    {
      key in entries
    }

    function GetFloat(key: string): real
      reads this
    {
      FloatAt(entries, key)
    }

    function GetInt(key: string): int
      reads this
    {
      IntAt(entries, key)
    }

    method SetFloat(key: string, value: real)
      modifies this
      ensures entries == old(entries)[key := FloatPref(value)]
    {
      entries := entries[key := FloatPref(value)];
    }

    method SetInt(key: string, value: int)
      modifies this
      ensures entries == old(entries)[key := IntPref(value)]
    {
      entries := entries[key := IntPref(value)];
    }
  }
}
