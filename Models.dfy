/**
  * The persisted entities (`CardItem`, `SectionItem`) as value records, and the
  * app-wide `LockState` object that every screen shares.
  */
module Models {
  import opened Common

  /** A decoded picture (`UIImage`); `jpeg` is what `jpegData(compressionQuality: 0.8)` yields for it. */
  datatype Image = Image(jpeg: Option<Bytes>)

  /** One picture-card: its spoken name, optional picture and recording, creation time and star. */
  datatype CardItem = CardItem(
    id: Id,
    name: string,
    imageData: Option<Bytes>,
    audioData: Option<Bytes>,
    createdAt: int,
    isFavorite: bool)

  /** A colour-coded group of cards. */
  datatype SectionItem = SectionItem(
    id: Id,
    name: string,
    colorHex: string,
    iconName: string,
    createdAt: int,
    isFavorite: bool,
    cards: seq<CardItem>)

  /** `CardItem(name:imageData:audioData:)`: created now, not a favourite. */
  function NewCard(id: Id, name: string, imageData: Option<Bytes>, audioData: Option<Bytes>, now: int): CardItem {
    CardItem(id, name, imageData, audioData, now, false)
  }

  /** `SectionItem(name:colorHex:iconName:)`: created now, not a favourite, no cards. */
  function NewSection(id: Id, name: string, colorHex: string, iconName: string, now: int): SectionItem {
    SectionItem(id, name, colorHex, iconName, now, false, [])
  }

  /** The star on one section tile: `isFavorite.toggle()` on the section with that id, nothing else changes. */
  function ToggleSectionFavorite(sections: seq<SectionItem>, id: Id): (r: seq<SectionItem>)
    ensures |r| == |sections|
    ensures forall i :: 0 <= i < |r| ==>
      r[i] == if sections[i].id == id then sections[i].(isFavorite := !sections[i].isFavorite) else sections[i]
  {
    if sections == [] then []
    else
      var s := sections[0];
      [if s.id == id then s.(isFavorite := !s.isFavorite) else s] + ToggleSectionFavorite(sections[1..], id)
  }

  /** Tapping the same section's star twice restores every section. */
  lemma ToggleSectionFavoriteTwice(sections: seq<SectionItem>, id: Id)
    ensures ToggleSectionFavorite(ToggleSectionFavorite(sections, id), id) == sections
  {
    var r := ToggleSectionFavorite(ToggleSectionFavorite(sections, id), id);
    assert forall i :: 0 <= i < |r| ==> r[i] == sections[i];
  }

  /** The star on one card: `isFavorite.toggle()` on the card with that id, nothing else changes. */
  function ToggleCardFavorite(cards: seq<CardItem>, id: Id): (r: seq<CardItem>)
    ensures |r| == |cards|
    ensures forall i :: 0 <= i < |r| ==>
      r[i] == if cards[i].id == id then cards[i].(isFavorite := !cards[i].isFavorite) else cards[i]
  {
    if cards == [] then []
    else
      var c := cards[0];
      [if c.id == id then c.(isFavorite := !c.isFavorite) else c] + ToggleCardFavorite(cards[1..], id)
  }

  /** Tapping the same card's star twice restores every card. */
  lemma ToggleCardFavoriteTwice(cards: seq<CardItem>, id: Id)
    ensures ToggleCardFavorite(ToggleCardFavorite(cards, id), id) == cards
  {
    var r := ToggleCardFavorite(ToggleCardFavorite(cards, id), id);
    assert forall i :: 0 <= i < |r| ==> r[i] == cards[i];
  }

  /** The environment object through which all screens share the page lock. */
  class LockState {
    var isLocked: bool

    constructor (locked: bool)
      ensures isLocked == locked
    {
      isLocked := locked;
    }
  }
}
