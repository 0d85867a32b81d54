/** The key-driven render settings of the flying-things demo: bounded
    counters and boolean toggles, and the object type and level of detail
    that select a vertex array at render time. */
module FlyingThings {

  /** The keys `keyPressEvent` handles; every other key is `Other`. */
  datatype Key = Escape | Space | Plus | Minus | Greater | Less | KeyT | KeyP | KeyF | KeyB | KeyL
               | Other(code: int)

  /** A snapshot of the fields the key handler touches. */
  datatype Settings = Settings(
    wantExit: bool, pause: bool,
    objects: int, objectLOD: int, objectType: int,
    wireframe: bool, frustumCulling: bool, backfaceCulling: bool, distanceLOD: bool)

  /** The vertex arrays are allocated as 4 object types by 18 levels of detail. */
  const TypeCount: int := 4
  const LodCount: int := 18

  /** The ranges the counters stay in. */
  predicate InRange(s: Settings) {
    1 <= s.objects < 10240 && 0 <= s.objectLOD <= 17 && 0 <= s.objectType <= 4
  }

  /** The constructor's initial values. */
  function Initial(): (s: Settings)
    ensures InRange(s)
    ensures !s.wantExit && !s.pause && !s.wireframe && !s.frustumCulling
    ensures !s.backfaceCulling && !s.distanceLOD
  {
    Settings(false, false, 400, 7, 3, false, false, false, false)
  }

  /** The effect of one key press. */
  function Press(s: Settings, k: Key): Settings {
    match k
    case Escape => s.(wantExit := true)
    case Space => s.(pause := !s.pause)
    case Plus => if s.objects < 5120 then s.(objects := s.objects * 2) else s
    case Minus => if s.objects > 1 then s.(objects := s.objects / 2) else s
    case Greater => if s.objectLOD < 17 then s.(objectLOD := s.objectLOD + 1) else s
    case Less => if s.objectLOD > 0 then s.(objectLOD := s.objectLOD - 1) else s
    case KeyT => s.(objectType := if s.objectType + 1 > 4 then 0 else s.objectType + 1)
    case KeyP => s.(wireframe := !s.wireframe)
    case KeyF => s.(frustumCulling := !s.frustumCulling)
    case KeyB => s.(backfaceCulling := !s.backfaceCulling)
    case KeyL => s.(distanceLOD := !s.distanceLOD)
    case Other(_) => s
  }

  /** The state after a sequence of key presses, first key first. */
  function PressAll(s: Settings, keys: seq<Key>): Settings
    decreases |keys|
  {
    if keys == [] then s else PressAll(Press(s, keys[0]), keys[1..])
  }

  /** The number of fields in which two snapshots differ. */
  function Changed(s: Settings, t: Settings): nat {
    (if s.wantExit != t.wantExit then 1 else 0) + (if s.pause != t.pause then 1 else 0)
    + (if s.objects != t.objects then 1 else 0) + (if s.objectLOD != t.objectLOD then 1 else 0)
    + (if s.objectType != t.objectType then 1 else 0) + (if s.wireframe != t.wireframe then 1 else 0)
    + (if s.frustumCulling != t.frustumCulling then 1 else 0)
    + (if s.backfaceCulling != t.backfaceCulling then 1 else 0)
    + (if s.distanceLOD != t.distanceLOD then 1 else 0)
  }

  predicate IsToggle(k: Key) {
    k.Space? || k.KeyP? || k.KeyF? || k.KeyB? || k.KeyL?
  }

  /** Every key keeps the counters in range. */
  lemma PressKeepsRange(s: Settings, k: Key)
    requires InRange(s)
    ensures InRange(Press(s, k))
  {
  }

  /** Every key changes at most one field, an unlisted key none, and a
      toggle exactly one. */
  lemma PressChangesAtMostOneField(s: Settings, k: Key)
    ensures Changed(s, Press(s, k)) <= 1
    ensures k.Other? ==> Press(s, k) == s
    ensures IsToggle(k) ==> Changed(s, Press(s, k)) == 1
  {
  }

  /** Pressing a toggle key twice restores the state. */
  lemma ToggleTwiceRestores(s: Settings, k: Key)
    requires IsToggle(k)
    ensures Press(Press(s, k), k) == s
  {
  }

  /** The type key visits 0, 1, 2, 3, 4 and wraps to 0. */
  lemma TypeKeyCycles(s: Settings)
    requires 0 <= s.objectType <= 4
    ensures PressAll(s, [KeyT, KeyT, KeyT, KeyT, KeyT]).objectType == s.objectType
  {
  }

  /** Any sequence of presses from the initial state stays in range. */
  lemma {:induction false} PressAllKeepsRange(s: Settings, keys: seq<Key>)
    requires InRange(s)
    ensures InRange(PressAll(s, keys))
    decreases |keys|
  {
    if keys != [] {
      PressKeepsRange(s, keys[0]);
      PressAllKeepsRange(Press(s, keys[0]), keys[1..]);
    }
  }

  /** The render loop's choice for object i: the level of detail is the
      setting, the type is the setting or, for setting 4, cycles with i. */
  function RenderIndex(s: Settings, i: nat): (r: (int, int))
    requires InRange(s)
    ensures 0 <= r.0 < TypeCount && 0 <= r.1 < LodCount
    ensures s.objectType < 4 ==> r.0 == s.objectType
  {
    var lod := s.objectLOD;
    var t := if s.objectType == 4 then i % 4 else s.objectType;
    (t, lod)
  }

  /** After any key sequence from the initial state, every object's vertex
      array index is inside the allocated 4 by 18 table. */
  lemma RenderIndexSafeAfterKeys(keys: seq<Key>, i: nat)
    ensures InRange(PressAll(Initial(), keys))
    ensures var r := RenderIndex(PressAll(Initial(), keys), i);
      0 <= r.0 < TypeCount && 0 <= r.1 < LodCount
  {
    PressAllKeepsRange(Initial(), keys);
  }

  /** The application object. Its settings fields are kept together as one
      record; `KeyPressEvent` updates them in place, one field per key. */
  class App {
    var settings: Settings

    constructor ()
      ensures settings == Initial()
    {
      settings := Initial();
    }

    /** `keyPressEvent`: the new settings are `Press` of the old ones, so
        (`PressKeepsRange`) settings in range stay in range. */
    method KeyPressEvent(k: Key)
      modifies this
      ensures settings == Press(old(settings), k)
    {
      match k {
        case Escape =>
          settings := settings.(wantExit := true);
          assert settings == Press(old(settings), k);
        case Space =>
          settings := settings.(pause := !settings.pause);
          assert settings == Press(old(settings), k);
        case Plus =>
          if settings.objects < 5120 {
            settings := settings.(objects := settings.objects * 2);
          }
          assert settings == Press(old(settings), k);
        case Minus =>
          if settings.objects > 1 {
            settings := settings.(objects := settings.objects / 2);
          }
          assert settings == Press(old(settings), k);
        case Greater =>
          if settings.objectLOD < 17 {
            settings := settings.(objectLOD := settings.objectLOD + 1);
          }
          assert settings == Press(old(settings), k);
        case Less =>
          if settings.objectLOD > 0 {
            settings := settings.(objectLOD := settings.objectLOD - 1);
          }
          assert settings == Press(old(settings), k);
        case KeyT =>
          settings := settings.(objectType := settings.objectType + 1);
          if settings.objectType > 4 {
            settings := settings.(objectType := 0);
          }
          assert settings == Press(old(settings), k);
        case KeyP =>
          settings := settings.(wireframe := !settings.wireframe);
          assert settings == Press(old(settings), k);
        case KeyF =>
          settings := settings.(frustumCulling := !settings.frustumCulling);
          assert settings == Press(old(settings), k);
        case KeyB =>
          settings := settings.(backfaceCulling := !settings.backfaceCulling);
          assert settings == Press(old(settings), k);
        case KeyL =>
          settings := settings.(distanceLOD := !settings.distanceLOD);
          assert settings == Press(old(settings), k);
        case Other(_) =>
      }
    }

    /** `wantExit`: set once Escape has been pressed. */
    function WantExit(): (r: bool)
      reads this
      ensures r <==> settings.wantExit
    {
      settings.wantExit
    }
  }
}
