/** JosoRegionBlocker.js: the list of blocked region ids, read once from the
    plugin parameter, and the player's passability check that refuses a step
    onto a tile of a blocked region before asking the engine's own check. */
module RegionBlocker {
  import opened Common
  import opened JsText

  /** The result of JavaScript `Number`: an integer or NaN. */
  datatype JsNumber = Int(n: int) | NaN

  /** An entry of the parsed JSON array: a string or an integer. */
  datatype JsonEntry = JText(text: string) | JInt(value: int)

  /** `Number(text)`: whitespace around is ignored, empty text is 0, an
      optionally signed run of decimal digits is its value; anything else is
      NaN here. */
  function NumberOfText(text: string): JsNumber
  {
    var t := Trim(text);
    if t == "" then Int(0)
    else
      var body := if t[0] == '-' || t[0] == '+' then t[1..] else t;
      if |body| >= 1 && AllDigits(body) then
        var v: int := DecimalValue(body);
        Int(if t[0] == '-' then -v else v)
      else NaN
  }

  function ToNumber(e: JsonEntry): JsNumber
  {
    match e
    case JText(t) => NumberOfText(t)
    case JInt(v) => Int(v)
  }

  lemma DigitsNotSpace(ds: string)
    requires |ds| >= 1 && AllDigits(ds)
    ensures Trim(ds) == ds
  {
    assert !IsSpace(ds[0]);
    assert TrimStart(ds) == ds;
    assert !IsSpace(ds[|ds| - 1]);
  }

  /** The decimal text of a region id reads back as that id. */
  lemma NumberOfDecimal(n: nat)
    ensures NumberOfText(Decimal(n)) == Int(n)
  {
    DigitsNotSpace(Decimal(n));
    DecimalRoundTrip(n);
  }

  /** `JSON.parse(params["Blocked Region IDs"] || "[]").map(Number)`, given
      the parsed array, or nothing when the parameter is missing or empty. */
  function BlockedRegions(parsed: Option<seq<JsonEntry>>): (r: seq<JsNumber>)
    ensures parsed.None? ==> r == []
    ensures parsed.Some? ==> |r| == |parsed.value| && forall i :: 0 <= i < |r| ==> r[i] == ToNumber(parsed.value[i])
  {
    match parsed
    case None => []
    case Some(entries) => seq(|entries|, i requires 0 <= i < |entries| => ToNumber(entries[i]))
  }

  /** A region written in the list, as text or as a number, is blocked. */
  lemma ListedRegionIsBlocked(entries: seq<JsonEntry>, i: nat, region: nat)
    requires i < |entries| && (entries[i] == JText(Decimal(region)) || entries[i] == JInt(region))
    ensures Int(region) in BlockedRegions(Some(entries))
  {
    NumberOfDecimal(region);
    assert BlockedRegions(Some(entries))[i] == Int(region);
  }

  /** The engine's map services the check uses. */
  datatype GameMap = GameMap(
    regionId: (int, int) -> int,
    roundXWithDirection: (int, int) -> int,
    roundYWithDirection: (int, int) -> int)

  /** The region of the tile one step from `(x, y)` in direction `d`. */
  function DestinationRegion(m: GameMap, x: int, y: int, d: int): int
  {
    m.regionId(m.roundXWithDirection(x, d), m.roundYWithDirection(y, d))
  }

  /** `Game_Player.canPass(x, y, d)`; `basePass` is `Game_Character`'s own. */
  function PlayerCanPass(blocked: seq<JsNumber>, m: GameMap, basePass: (int, int, int) -> bool, x: int, y: int, d: int): bool
  {
    if Int(DestinationRegion(m, x, y, d)) in blocked then false else basePass(x, y, d)
  }

  /** The characters of the map: only the player's check is replaced. */
  datatype Mover = Player | OtherCharacter

  function CanPass(who: Mover, blocked: seq<JsNumber>, m: GameMap, basePass: (int, int, int) -> bool, x: int, y: int, d: int): (r: bool)
    ensures who == OtherCharacter ==> r == basePass(x, y, d)
    ensures r ==> basePass(x, y, d)
  {
    match who
    case Player => PlayerCanPass(blocked, m, basePass, x, y, d)
    case OtherCharacter => basePass(x, y, d)
  }

  /** The player passes exactly when the destination's region is not in
      the list and the engine lets the step through. */
  lemma PlayerCanPassIff(blocked: seq<JsNumber>, m: GameMap, basePass: (int, int, int) -> bool, x: int, y: int, d: int)
    ensures CanPass(Player, blocked, m, basePass, x, y, d) <==>
      (forall i :: 0 <= i < |blocked| ==> blocked[i] != Int(DestinationRegion(m, x, y, d))) && basePass(x, y, d)
  {
    var r := Int(DestinationRegion(m, x, y, d));
    if r in blocked {
      var i :| 0 <= i < |blocked| && blocked[i] == r;
    }
  }

  /** Only the destination's region is looked at: two maps that agree on it
      give the same answer, whatever regions the tiles around have. */
  lemma OnlyDestinationMatters(blocked: seq<JsNumber>, m1: GameMap, m2: GameMap, basePass: (int, int, int) -> bool, x: int, y: int, d: int)
    requires DestinationRegion(m1, x, y, d) == DestinationRegion(m2, x, y, d)
    ensures CanPass(Player, blocked, m1, basePass, x, y, d) == CanPass(Player, blocked, m2, basePass, x, y, d)
  {
  }

  /** With the parameter missing, nothing is blocked and the player moves as
      the engine allows. */
  lemma MissingParameterBlocksNothing(m: GameMap, basePass: (int, int, int) -> bool, x: int, y: int, d: int)
    ensures CanPass(Player, BlockedRegions(None), m, basePass, x, y, d) == basePass(x, y, d)
  {
  }

  /** A region written in the list stops the player from stepping onto any
      of its tiles, wherever the engine would allow it. */
  lemma ListedRegionStopsPlayer(entries: seq<JsonEntry>, i: nat, m: GameMap, basePass: (int, int, int) -> bool, x: int, y: int, d: int)
    requires i < |entries| && DestinationRegion(m, x, y, d) >= 0
    requires entries[i] == JText(Decimal(DestinationRegion(m, x, y, d)))
    ensures !CanPass(Player, BlockedRegions(Some(entries)), m, basePass, x, y, d)
  {
    ListedRegionIsBlocked(entries, i, DestinationRegion(m, x, y, d));
  }
}
