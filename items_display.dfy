/** The item strip of a match row: six main slots and a trinket, drawn with images from the
    pinned asset version.  The same image rule is used by the expanded match details. */
module ItemsDisplay {
  import opened Strings
  import opened MatchTypes
  import DataDragon
  import ItemImage

  /** The image URL for an item id at the pinned version; "" only for the empty slot 0.
      Unlike the hook in `ItemImage`, a negative id still gets a URL. */
  function PinnedItemUrl(itemId: int): (url: string)
    ensures url == [] <==> itemId == 0
    ensures itemId > 0 ==> url == ItemImage.ItemImageUrl(DataDragon.PinnedVersion, itemId as real)
  {
    if itemId == 0 then "" else DataDragon.Cdn + DataDragon.PinnedVersion + "/img/item/" + IntToString(itemId) + ".png"
  }

  /** Slots 0 to 5, in order. */
  function MainItems(p: Participant): (items: seq<int>)
    ensures items == ItemImage.ParticipantItems(p)[..6]
  {
    [p.item0, p.item1, p.item2, p.item3, p.item4, p.item5]
  }

  /** Slot 6. */
  function Trinket(p: Participant): (item: int)
    ensures item == ItemImage.ParticipantItems(p)[6]
  {
    p.item6
  }

  /** The image drawn in a slot: only a positive id gets one. */
  function SlotImage(itemId: int): (img: Wrappers.Option<string>)
    ensures img.Some? <==> itemId > 0
    ensures img.Some? ==> img.value == ItemImage.ItemImageUrl(DataDragon.PinnedVersion, itemId as real)
  {
    if itemId > 0 then Wrappers.Some(PinnedItemUrl(itemId)) else Wrappers.None
  }

  /** The main slots followed by the trinket are exactly the participant's seven slots. */
  lemma SlotsPartition(p: Participant)
    ensures MainItems(p) + [Trinket(p)] == ItemImage.ParticipantItems(p)
    ensures |MainItems(p)| == 6
  {
  }
}
