/**
 * The loader of the virtual keyboard's settings: a cache shared by the
 * whole application in front of the `PosVirtualKeyboard` table.  It
 * answers from the cache when it can, else from the first active row,
 * which it then caches; without a database, without an active row, or on
 * a database error it answers with built-in fallback settings, which it
 * never caches.
 */
module KeyboardSettings {
  import opened Wrappers

  /** A `PosVirtualKeyboard` row (the geometry and font columns). */
  datatype KeyboardRow = KeyboardRow(
    name: string,
    isActive: bool,
    isDeleted: bool,
    keyboardWidth: int,
    keyboardHeight: int,
    xPosition: int,
    yPosition: int,
    fontFamily: string,
    fontSize: int,
    buttonWidth: int,
    buttonHeight: int)

  /** `_get_default_settings`. */
  const Fallback := KeyboardRow("DEFAULT_FALLBACK", true, false, 970, 315, 0, 0, "Noto Sans CJK JP", 20, 80, 40)

  /** The database engine: the table as it stands, or a session that raises. */
  datatype Engine = Engine(rows: seq<KeyboardRow>, failing: bool)

  predicate IsLive(r: KeyboardRow)
  {
    r.isActive && !r.isDeleted
  }

  /** The first active, non-deleted row, if any. */
  function FirstLive(rows: seq<KeyboardRow>): (r: Option<KeyboardRow>)
    ensures r.Some? ==> r.value in rows && IsLive(r.value)
    ensures r.None? <==> forall k :: 0 <= k < |rows| ==> !IsLive(rows[k])
    ensures r.Some? ==> exists k :: 0 <= k < |rows| && rows[k] == r.value && forall j :: 0 <= j < k ==> !IsLive(rows[j])
  {
    if |rows| == 0 then None
    else if IsLive(rows[0]) then Some(rows[0])
    else
      var r := FirstLive(rows[1..]);
      assert forall k :: 0 < k < |rows| ==> rows[k] == rows[1..][k - 1];
      r
  }

  /** What a lookup without the cache answers: the fallback without an
      engine, on an error, or without an active row. */
  function Lookup(engine: Option<Engine>): (r: KeyboardRow)
    ensures r.isActive
  {
    if engine.None? || engine.value.failing then Fallback
    else FirstLive(engine.value.rows).GetOr(Fallback)
  }

  /** The class-level state: the engine and the cached settings. */
  class Loader {
    var engine: Option<Engine>
    var cached: Option<KeyboardRow>

    /** Only an active row is ever cached. */
    ghost predicate Valid()
      reads this
    {
      cached.Some? ==> IsLive(cached.value)
    }

    constructor ()
      ensures engine.None? && cached.None? && Valid()
    {
      engine := None;
      cached := None;
    }

    /** `initialize`: stores the engine and empties the cache. */
    method Initialize(e: Engine)
      modifies this
      ensures engine == Some(e) && cached.None? && Valid()
    {
      engine := Some(e);
      cached := None;
    }

    /** `get_active_settings`. */
    method GetActiveSettings() returns (s: KeyboardRow)
      requires Valid()
      modifies this`cached
      ensures Valid()
      ensures old(cached).Some? ==> s == old(cached).value && cached == old(cached)
      ensures old(cached).None? ==> s == Lookup(engine)
      ensures old(cached).None? ==>
        cached == (if engine.Some? && !engine.value.failing then FirstLive(engine.value.rows) else None)
    {
      if cached.Some? {
        return cached.value;
      }
      if engine.None? {
        return Fallback;
      }
      if engine.value.failing {
        return Fallback;
      }
      var found := FirstLive(engine.value.rows);
      if found.Some? {
        cached := found;
        return found.value;
      }
      s := Fallback;
    }

    /** `reload_settings`: empties the cache and looks up again. */
    method ReloadSettings() returns (s: KeyboardRow)
      requires Valid()
      modifies this`cached
      ensures Valid()
      ensures s == Lookup(engine)
      ensures cached == (if engine.Some? && !engine.value.failing then FirstLive(engine.value.rows) else None)
    {
      cached := None;
      s := GetActiveSettings();
    }

    /** `is_keyboard_enabled`: the answer is always an active setting, so
        the keyboard is always enabled. */
    method IsKeyboardEnabled() returns (enabled: bool)
      requires Valid()
      modifies this`cached
      ensures Valid()
      ensures enabled
    {
      var s := GetActiveSettings();
      enabled := s.isActive;
    }
  }

  /** Once a row is cached, a change to the table is not seen until the
      cache is reloaded. */
  method StaleUntilReload(rows1: seq<KeyboardRow>, rows2: seq<KeyboardRow>)
    returns (first: KeyboardRow, second: KeyboardRow, reloaded: KeyboardRow)
    requires FirstLive(rows1).Some?
    ensures first == FirstLive(rows1).value && second == first
    ensures reloaded == Lookup(Some(Engine(rows2, false)))
  {
    var loader := new Loader();
    loader.Initialize(Engine(rows1, false));
    first := loader.GetActiveSettings();
    loader.engine := Some(Engine(rows2, false));
    second := loader.GetActiveSettings();
    reloaded := loader.ReloadSettings();
  }
}
