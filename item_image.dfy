/** Item image URLs for a game version.  An item id is a JavaScript number, modelled as a
    `real` so that non-integral ids can be told apart; `NaN` is not modelled. */
module ItemImage {
  import opened Strings
  import opened MatchTypes
  import DataDragon

  predicate IsInteger(x: real) { x == x.Floor as real }

  /** An id names an item when it is a positive integer. */
  predicate IsValidItemId(itemId: real) {
    itemId > 0.0 && IsInteger(itemId)
  }

  /** The ids for which the source logs an "Invalid item ID" warning: set but negative or
      not integral. */
  predicate WarnsInvalidItemId(itemId: real) {
    itemId != 0.0 && (itemId < 0.0 || !IsInteger(itemId))
  }

  /** The URL of a valid item's image; "" for an empty slot (id 0) or an invalid id. */
  function ItemImageUrl(gameVersion: string, itemId: real): (url: string)
    ensures url != [] <==> IsValidItemId(itemId)
    ensures WarnsInvalidItemId(itemId) ==> url == []
    ensures IsValidItemId(itemId) ==>
      url == DataDragon.Cdn + gameVersion + "/img/item/" + NatToString(itemId.Floor) + ".png"
  {
    if itemId == 0.0 then ""
    else if itemId < 0.0 || !IsInteger(itemId) then ""
    else DataDragon.Cdn + gameVersion + "/img/item/" + IntToString(itemId.Floor) + ".png"
  }

  /** Distinct valid items have distinct image URLs within one game version. */
  lemma ItemUrlInjective(gameVersion: string, a: real, b: real)
    requires IsValidItemId(a) && IsValidItemId(b)
    requires ItemImageUrl(gameVersion, a) == ItemImageUrl(gameVersion, b)
    ensures a == b
  {
    var prefix := DataDragon.Cdn + gameVersion + "/img/item/";
    var ua := ItemImageUrl(gameVersion, a);
    assert ua[|prefix|..|ua| - 4] == NatToString(a.Floor);
    assert ua[|prefix|..|ua| - 4] == NatToString(b.Floor);
    NatToStringInjective(a.Floor, b.Floor);
  }

  /** The seven item slots of a participant, slot 0 first; slot 6 is the trinket. */
  function ParticipantItems(p: Participant): (items: seq<int>)
    ensures |items| == 7
  {
    [p.item0, p.item1, p.item2, p.item3, p.item4, p.item5, p.item6]
  }

  /** The image URL of each id, position by position. */
  function ParticipantItemUrls(gameVersion: string, items: seq<real>): (urls: seq<string>)
    ensures |urls| == |items|
    ensures forall i | 0 <= i < |items| :: urls[i] == ItemImageUrl(gameVersion, items[i])
  {
    if items == [] then []
    else [ItemImageUrl(gameVersion, items[0])] + ParticipantItemUrls(gameVersion, items[1..])
  }

  /** The image URLs of a participant's seven slots. */
  function ParticipantItemUrlsFromData(gameVersion: string, p: Participant): (urls: seq<string>)
    ensures |urls| == 7
    ensures forall i | 0 <= i < 7 :: (urls[i] != []) == (ParticipantItems(p)[i] > 0)
    ensures forall i | 0 <= i < 7 :: urls[i] == ItemImageUrl(gameVersion, ParticipantItems(p)[i] as real)
  {
    var items := ParticipantItems(p);
    ParticipantItemUrls(gameVersion, seq(7, i requires 0 <= i < 7 => items[i] as real))
  }
}
