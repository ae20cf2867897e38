/** JosoLightningSystem_Battle.js: the darkness of the battle screen, read
    from a `<darkness:N>` tag in the map's note, and the lights that follow
    the battlers: created once, after the spriteset and its actor sprites
    exist, and shown each frame only over a battler sprite that is visible
    and has a bitmap. */
module BattleLighting {
  import opened Common
  import opened JsText

  const DarknessHeader := "<darkness:"

  function DarknessAt(s: string, p: nat): Option<string>
  {
    DigitsTagAt(s, p, DarknessHeader)
  }

  function Max(a: int, b: int): int
  {
    if a >= b then a else b
  }

  function Min(a: int, b: int): int
  {
    if a <= b then a else b
  }

  /** `getDarknessOpacity()`: 0 without a map; otherwise the number of the
      first `<darkness:N>` tag of the map's note (any letter case), held to
      `[0, 255]`, and 0 when the note is missing or has no tag. */
  function DarknessOpacity(hasMap: bool, note: Option<string>): (r: int)
    ensures 0 <= r <= 255
    ensures !hasMap ==> r == 0
  {
    if !hasMap then 0
    else
      var s := if note.Some? then note.value else "";
      match FirstMatch(s, 0, DarknessAt)
      case None => 0
      case Some(found) =>
        DigitsTagAtIff(s, found.0, DarknessHeader, found.1);
        Min(Max(DecimalValue(found.1), 0), 255)
  }

  /** A missing note is the empty note, which has no tag. */
  lemma NoNoteNoDarkness(hasMap: bool)
    ensures DarknessOpacity(hasMap, None) == 0
  {
    assert FirstMatch("", 1, DarknessAt).None?;
  }

  /** No position of `note` starts a darkness tag. */
  predicate NoDarknessTag(note: string)
  {
    forall k :: 0 <= k <= |note| ==> DarknessAt(note, k).None?
  }

  /** On a map, the first darkness tag sets the opacity, capped at 255; a
      note with no tag gives 0. */
  lemma DarknessOfNote(note: string, p: nat, ds: string)
    ensures NoDarknessTag(note) ==> DarknessOpacity(true, Some(note)) == 0
    ensures (p <= |note| && DigitsTag(note, p, DarknessHeader, ds)
             && forall k :: 0 <= k < p ==> DarknessAt(note, k).None?) ==>
      DarknessOpacity(true, Some(note)) == Min(DecimalValue(ds), 255)
  {
    if p <= |note| && DigitsTag(note, p, DarknessHeader, ds) && (forall k :: 0 <= k < p ==> DarknessAt(note, k).None?) {
      DigitsTagAtIff(note, p, DarknessHeader, ds);
      FirstMatchAt(note, 0, p, DarknessAt, ds);
    }
  }

  /** A battler sprite of the spriteset, as far as its light reads it. */
  class Sprite {
    var visible: bool
    var hasBitmap: bool
    var x: real
    var y: real
    var height: real
  }

  /** A light sprite of `createLight()`. */
  class Light {
    var visible: bool
    var x: real
    var y: real
    var opacity: int

    constructor ()
      ensures visible && x == 0.0 && y == 0.0 && opacity == 180
    {
      visible := true;
      x := 0.0;
      y := 0.0;
      opacity := 180;
    }

    /** One turn of the light loop: over a shown sprite the light becomes
        visible at the sprite's position, half its height up; otherwise it is
        hidden where it is. */
    method Follow(s: Sprite?)
      modifies this
      ensures Shown(s) ==> visible && x == s.x && y == s.y - s.height / 2.0
      ensures !Shown(s) ==> !visible && x == old(x) && y == old(y)
      ensures opacity == old(opacity)
    {
      if s != null && s.visible && s.hasBitmap {
        visible := true;
        x := s.x;
        y := s.y - s.height / 2.0;
      } else {
        visible := false;
      }
    }
  }

  /** One `{ light, sprite }` entry of `_lights`. */
  datatype LightPair = LightPair(light: Light, sprite: Sprite?)

  /** `Spriteset_Battle`: its actor sprites may not exist yet. */
  datatype Spriteset = Spriteset(actorSprites: Option<seq<Sprite?>>, enemySprites: seq<Sprite?>)

  /** The spriteset exists and has its actor sprites. */
  predicate Ready(spriteset: Option<Spriteset>)
  {
    spriteset.Some? && spriteset.value.actorSprites.Some?
  }

  /** `[..._actorSprites, ..._enemySprites]`. */
  function Battlers(spriteset: Option<Spriteset>): seq<Sprite?>
    requires Ready(spriteset)
  {
    spriteset.value.actorSprites.value + spriteset.value.enemySprites
  }

  /** A pair just made by `_createLightsLater`: a new light over `sprite`,
      visible, at the origin, at opacity 180. */
  predicate NewLight(pair: LightPair, sprite: Sprite?)
    reads pair.light
  {
    && pair.sprite == sprite
    && pair.light.visible && pair.light.opacity == 180 && pair.light.x == 0.0 && pair.light.y == 0.0
  }

  /** A light is shown over its sprite exactly when this holds. */
  predicate Shown(s: Sprite?)
    reads s
  {
    s != null && s.visible && s.hasBitmap
  }

  /** The light and darkness part of `Scene_Battle`. */
  class BattleLighting {
    var lights: seq<LightPair>
    /** `_createLightsLater` is still set. */
    var pending: bool
    var darknessOpacity: int

    /** No light object appears twice. */
    ghost predicate Valid()
      reads this
    {
      forall i, j :: 0 <= i < j < |lights| ==> lights[i].light != lights[j].light
    }

    function LightObjects(): set<Light>
      reads this
    {
      set i | 0 <= i < |lights| :: lights[i].light
    }

    /** `createAllWindows`: the darkness layer gets its opacity, there are no
        lights yet, and their creation is put off. */
    constructor (hasMap: bool, note: Option<string>)
      ensures lights == [] && pending && Valid()
      ensures darknessOpacity == DarknessOpacity(hasMap, note)
    {
      lights := [];
      pending := true;
      darknessOpacity := DarknessOpacity(hasMap, note);
    }

    /** `_createLightsLater()`: nothing, and still pending, until the
        spriteset and its actor sprites exist; then one new light per actor
        sprite and then per enemy sprite, in order, and never again. */
    method CreateLightsLater(spriteset: Option<Spriteset>)
      requires pending && Valid()
      modifies this
      ensures Valid() && darknessOpacity == old(darknessOpacity)
      ensures !Ready(spriteset) ==> pending && lights == old(lights)
      ensures Ready(spriteset) ==>
        && !pending
        && |lights| == |old(lights)| + |Battlers(spriteset)|
        && lights[..|old(lights)|] == old(lights)
        && forall j :: |old(lights)| <= j < |lights| ==> NewLight(lights[j], Battlers(spriteset)[j - |old(lights)|])
      ensures forall j :: |old(lights)| <= j < |lights| ==> fresh(lights[j].light)
    {
      if !Ready(spriteset) {
        return;
      }
      var battlers := Battlers(spriteset);
      var k := 0;
      while k < |battlers|
        invariant 0 <= k <= |battlers|
        invariant |lights| == |old(lights)| + k
        invariant lights[..|old(lights)|] == old(lights)
        invariant forall j :: |old(lights)| <= j < |lights| ==> NewLight(lights[j], battlers[j - |old(lights)|])
        invariant forall j :: |old(lights)| <= j < |lights| ==> fresh(lights[j].light)
        invariant Valid() && pending && darknessOpacity == old(darknessOpacity)
      {
        var light := new Light();
        lights := lights + [LightPair(light, battlers[k])];
        k := k + 1;
      }
      pending := false;
    }

    /** `Scene_Battle.update`: the deferred creation while it is pending,
        the darkness opacity again, then the light loop. A light made in this
        frame and not shown stays where it was made, at the origin. */
    method Update(spriteset: Option<Spriteset>, hasMap: bool, note: Option<string>)
      requires Valid()
      modifies this, LightObjects()
      ensures Valid()
      ensures darknessOpacity == DarknessOpacity(hasMap, note)
      ensures pending == (old(pending) && !Ready(spriteset))
      ensures old(pending) && Ready(spriteset) ==>
        && |lights| == |old(lights)| + |Battlers(spriteset)|
        && lights[..|old(lights)|] == old(lights)
        && forall j :: |old(lights)| <= j < |lights| ==>
             lights[j].sprite == Battlers(spriteset)[j - |old(lights)|] && fresh(lights[j].light)
      ensures !(old(pending) && Ready(spriteset)) ==> lights == old(lights)
      ensures forall i :: 0 <= i < |lights| ==>
        var l := lights[i].light;
        var s := lights[i].sprite;
        && (Shown(s) ==> l.visible && l.x == s.x && l.y == s.y - s.height / 2.0)
        && (!Shown(s) && i < |old(lights)| ==> !l.visible && l.x == old(l.x) && l.y == old(l.y))
        && (!Shown(s) && i >= |old(lights)| ==> !l.visible && l.x == 0.0 && l.y == 0.0)
        && l.opacity == (if i < |old(lights)| then old(l.opacity) else 180)
    {
      if pending {
        CreateLightsLater(spriteset);
      }
      darknessOpacity := DarknessOpacity(hasMap, note);
      forall l | l in LightObjects() ensures l in old(LightObjects()) || fresh(l) {
        var i :| 0 <= i < |lights| && lights[i].light == l;
        if i < |old(lights)| {
          assert old(lights)[i] == lights[i];
        }
      }
      UpdateLights();
    }

    /** The light loop of `update`: a light over a shown sprite becomes
        visible and moves to the sprite's position, half the sprite's height
        up; any other light is hidden where it was. */
    method UpdateLights()
      requires Valid()
      modifies LightObjects()
      ensures forall i :: 0 <= i < |lights| ==>
        var l := lights[i].light;
        var s := lights[i].sprite;
        && (Shown(s) ==> l.visible && l.x == s.x && l.y == s.y - s.height / 2.0)
        && (!Shown(s) ==> !l.visible && l.x == old(l.x) && l.y == old(l.y))
        && l.opacity == old(l.opacity)
    {
      var i := 0;
      while i < |lights|
        invariant 0 <= i <= |lights|
        invariant forall j :: 0 <= j < i ==>
          var l := lights[j].light;
          var s := lights[j].sprite;
          && (Shown(s) ==> l.visible && l.x == s.x && l.y == s.y - s.height / 2.0)
          && (!Shown(s) ==> !l.visible && l.x == old(l.x) && l.y == old(l.y))
          && l.opacity == old(l.opacity)
        invariant forall j :: i <= j < |lights| ==>
          var l := lights[j].light;
          l.visible == old(l.visible) && l.x == old(l.x) && l.y == old(l.y) && l.opacity == old(l.opacity)
      {
        lights[i].light.Follow(lights[i].sprite);
        i := i + 1;
      }
    }
  }
}
