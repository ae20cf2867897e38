/** JosoItemRarity.js: the rarity of a database entry, read from a
    `<rarity:…>` tag in its note, the colour of each rarity, the pass over the
    item, weapon and armor databases that stores every entry's rarity when
    the database loads, and the colour `drawItemName` uses for a name. */
module ItemRarity {
  import opened Common
  import opened JsText

  /** `rarityColor(rarity)`. */
  function RarityColor(rarity: string): (c: string)
    ensures rarity !in {"common", "uncommon", "rare", "epic", "legendary"} ==> c == "#FFFFFF"
    ensures c == "#FFFFFF" <==> rarity !in {"uncommon", "rare", "epic", "legendary"}
    ensures c in {"#FFFFFF", "#00FF00", "#00FFFF", "#FF0000", "#800080"}
  {
    match rarity
    case "common" => "#FFFFFF"
    case "uncommon" => "#00FF00"
    case "rare" => "#00FFFF"
    case "epic" => "#FF0000"
    case "legendary" => "#800080"
    case _ => "#FFFFFF"
  }

  const RarityHeader := "<rarity:"

  /** The lazy `(.+?)>` tried from `q`: the least `k >= 1` such that
      `s[q + k]` is `>` and none of the `k` characters from `q` is a line
      terminator (`.` stops at one). */
  function LazyClose(s: string, q: nat, k: nat): (r: Option<nat>)
    requires k >= 1 && q + k - 1 <= |s|
    requires forall i :: q <= i < q + k - 1 ==> !IsLineTerminator(s[i])
    decreases |s| - q - k
    ensures r.Some? ==> k <= r.value && q + r.value < |s| && s[q + r.value] == '>'
    ensures r.Some? ==> forall i :: q <= i < q + r.value ==> !IsLineTerminator(s[i])
    ensures r.Some? ==> forall i :: q + k <= i < q + r.value ==> s[i] != '>'
  {
    if q + k >= |s| || IsLineTerminator(s[q + k - 1]) then None
    else if s[q + k] == '>' then Some(k)
    else LazyClose(s, q, k + 1)
  }

  /** What `/<rarity:(.+?)>/i` captures when it is tried at `p`. */
  function RarityAt(s: string, p: nat): Option<string>
  {
    if !LiteralAt(s, p, RarityHeader, true) then None
    else
      var q := p + |RarityHeader|;
      match LazyClose(s, q, 1)
      case None => None
      case Some(k) => Some(s[q .. q + k])
  }

  /** A tag at `p` whose text is `cap`: the header in either case, then at
      least one character with no line terminator and no `>` after the first,
      then `>`. */
  ghost predicate RarityTag(s: string, p: nat, cap: string)
  {
    var q := p + |RarityHeader|;
    && LiteralAt(s, p, RarityHeader, true)
    && |cap| >= 1 && q + |cap| < |s|
    && s[q .. q + |cap|] == cap
    && s[q + |cap|] == '>'
    && (forall i :: 0 <= i < |cap| ==> !IsLineTerminator(cap[i]))
    && (forall j :: 1 <= j < |cap| ==> cap[j] != '>')
  }

  lemma {:induction false} LazyCloseFinds(s: string, q: nat, k: nat, n: nat)
    requires 1 <= k <= n && q + n < |s| && s[q + n] == '>'
    requires forall i :: q <= i < q + n ==> !IsLineTerminator(s[i])
    requires forall i :: q + k <= i < q + n ==> s[i] != '>'
    ensures LazyClose(s, q, k) == Some(n)
    decreases n - k
  {
    if k < n {
      LazyCloseFinds(s, q, k + 1, n);
    }
  }

  lemma SliceIndex(s: string, q: nat, cap: string, i: nat)
    requires q + |cap| <= |s| && s[q .. q + |cap|] == cap && q <= i < q + |cap|
    ensures s[i] == cap[i - q]
  {
    assert s[q .. q + |cap|][i - q] == s[i];
  }

  /** The capture at `p` is exactly the text of a tag there. */
  lemma RarityAtIff(s: string, p: nat, cap: string)
    ensures RarityAt(s, p) == Some(cap) <==> RarityTag(s, p, cap)
  {
    var q := p + |RarityHeader|;
    if RarityTag(s, p, cap) {
      forall i | q <= i < q + |cap| ensures !IsLineTerminator(s[i]) {
        SliceIndex(s, q, cap, i);
      }
      forall i | q + 1 <= i < q + |cap| ensures s[i] != '>' {
        SliceIndex(s, q, cap, i);
      }
      LazyCloseFinds(s, q, 1, |cap|);
    }
    if RarityAt(s, p) == Some(cap) {
      var k := LazyClose(s, q, 1).value;
      assert cap == s[q .. q + k];
    }
  }

  /** An entry of `$dataItems`, `$dataWeapons` or `$dataArmors`. `rarity` is
      `""` until the load pass sets it (an unset field is falsy, as `""` is). */
  datatype DbEntry = DbEntry(id: int, name: string, note: string, rarity: string)

  /** `getRarity(object)`: `"common"` for no entry, an empty note or a note
      without a tag; otherwise the first tag's text, trimmed and lower-cased. */
  function GetRarity(entry: Option<DbEntry>): (r: string)
    ensures entry.None? || entry.value.note == "" ==> r == "common"
    ensures forall i :: 0 <= i < |r| ==> !('A' <= r[i] <= 'Z')
  {
    if entry.None? || entry.value.note == "" then "common"
    else
      match FirstMatch(entry.value.note, 0, RarityAt)
      case None => "common"
      case Some(found) => ToLowerAscii(Trim(found.1))
  }

  /** A note whose first tag is at `p` gives that tag's trimmed, lower-cased
      text; a note with no tag gives `"common"`. */
  lemma GetRarityOfNote(e: DbEntry, p: nat, cap: string)
    ensures (forall k :: 0 <= k <= |e.note| ==> RarityAt(e.note, k).None?) ==> GetRarity(Some(e)) == "common"
    ensures p <= |e.note| && RarityTag(e.note, p, cap) && (forall k :: 0 <= k < p ==> RarityAt(e.note, k).None?) ==>
      GetRarity(Some(e)) == ToLowerAscii(Trim(cap))
  {
    if p <= |e.note| && RarityTag(e.note, p, cap) && (forall k :: 0 <= k < p ==> RarityAt(e.note, k).None?) {
      RarityAtIff(e.note, p, cap);
      var found := FirstMatch(e.note, 0, RarityAt);
      assert found.Some? && found.value.0 == p;
    }
  }

  lemma ExampleTag()
    ensures RarityTag("<Rarity: Epic >", 0, " Epic ")
  {
    var note := "<Rarity: Epic >";
    assert |RarityHeader| == 8 && note[8 .. 14] == " Epic ";
    assert LowerChar('R') == 'r';
  }

  lemma ExampleTrim()
    ensures Trim(" Epic ") == "Epic"
  {
    assert !IsSpace('E') && !IsSpace('c') && IsSpace(' ');
    assert " Epic "[1..] == "Epic ";
    assert TrimStart("Epic ") == "Epic ";
    assert TrimStart(" Epic ") == "Epic ";
    assert "Epic "[..4] == "Epic";
    assert TrimEnd("Epic") == "Epic";
  }

  lemma ExampleLower()
    ensures ToLowerAscii("Epic") == "epic"
  {
    assert LowerChar('E') == 'e' && LowerChar('p') == 'p' && LowerChar('i') == 'i' && LowerChar('c') == 'c';
    var r := ToLowerAscii("Epic");
    assert |r| == 4 && r[0] == 'e' && r[1] == 'p' && r[2] == 'i' && r[3] == 'c';
  }

  lemma ExampleText()
    ensures ToLowerAscii(Trim(" Epic ")) == "epic"
  {
    ExampleTrim();
    ExampleLower();
  }

  /** A tag written with capitals and spaces reads back trimmed and in lower
      case: `<Rarity: Epic >` is epic. */
  lemma RarityExample()
    ensures GetRarity(Some(DbEntry(1, "Sword", "<Rarity: Epic >", ""))) == "epic"
  {
    ExampleTag();
    ExampleText();
    GetRarityOfNote(DbEntry(1, "Sword", "<Rarity: Epic >", ""), 0, " Epic ");
  }

  /** The databases `DataManager.onLoad` can receive. */
  datatype DbName = Items | Weapons | Armors | OtherDb

  function Annotate(e: DbEntry): DbEntry
  {
    e.(rarity := GetRarity(Some(e)))
  }

  /** A database slot after the load pass: a present entry gets its rarity. */
  function Annotated(slot: Option<DbEntry>): Option<DbEntry>
  {
    MapSome(slot, Annotate)
  }

  /** The rarity depends only on the note, so annotating twice is annotating once. */
  lemma AnnotateIdempotent(e: DbEntry)
    ensures Annotate(Annotate(e)) == Annotate(e)
  {
  }

  /** The annotation loop of `DataManager.onLoad`: in the item, weapon and
      armor databases every entry that is there gets its rarity; other
      databases, and the empty slots, are left alone. */
  method OnLoad(table: array<Option<DbEntry>>, name: DbName)
    modifies table
    ensures name == OtherDb ==> table[..] == old(table[..])
    ensures name != OtherDb ==> forall i :: 0 <= i < table.Length ==> table[i] == Annotated(old(table[i]))
  {
    if name == OtherDb {
      return;
    }
    MapPresent(table, Annotate);
  }

  /** The colour `drawItemName` draws a name in: nothing is drawn for no item;
      a set rarity picks its colour, an unset one the normal colour. */
  function ItemNameColor(item: Option<DbEntry>, normalColor: string): (c: Option<string>)
    ensures item.None? <==> c.None?
    ensures item.Some? && item.value.rarity == "" ==> c == Some(normalColor)
    ensures item.Some? && item.value.rarity != "" ==> c == Some(RarityColor(item.value.rarity))
  {
    match item
    case None => None
    case Some(e) => Some(if e.rarity != "" then RarityColor(e.rarity) else normalColor)
  }

  /** After loading, an entry whose note has no tag is drawn white, not in the
      normal colour, because its rarity was set to `"common"`. */
  lemma LoadedEntryColor(e: DbEntry, normalColor: string)
    requires forall k :: 0 <= k <= |e.note| ==> RarityAt(e.note, k).None?
    ensures ItemNameColor(Some(Annotate(e)), normalColor) == Some("#FFFFFF")
  {
    GetRarityOfNote(e, 0, "");
  }

  /** After loading, an entry whose first tag reads `cap` is drawn in the
      colour of its trimmed, lower-cased text, and a blank tag, which trims
      to nothing, leaves the name in the normal colour. */
  lemma TaggedEntryColor(e: DbEntry, p: nat, cap: string, normalColor: string)
    requires p <= |e.note| && RarityTag(e.note, p, cap)
    requires forall k :: 0 <= k < p ==> RarityAt(e.note, k).None?
    ensures ToLowerAscii(Trim(cap)) != "" ==>
      ItemNameColor(Some(Annotate(e)), normalColor) == Some(RarityColor(ToLowerAscii(Trim(cap))))
    ensures ToLowerAscii(Trim(cap)) == "" ==> ItemNameColor(Some(Annotate(e)), normalColor) == Some(normalColor)
  {
    GetRarityOfNote(e, p, cap);
  }

  /** `<rarity:   >` sets an empty rarity, so the name keeps the normal colour. */
  lemma BlankTagColor(normalColor: string)
    ensures ItemNameColor(Some(Annotate(DbEntry(1, "Sword", "<rarity:   >", ""))), normalColor) == Some(normalColor)
  {
    var note := "<rarity:   >";
    assert |RarityHeader| == 8 && note[8 .. 11] == "   ";
    assert RarityTag(note, 0, "   ");
    assert IsSpace(' ');
    assert TrimStart("   ") == "";
    assert Trim("   ") == "";
    assert ToLowerAscii("") == "";
    TaggedEntryColor(DbEntry(1, "Sword", note, ""), 0, "   ", normalColor);
  }
}
