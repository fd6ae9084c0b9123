/**
  * `SectionDetailView`: one section's cards. A normal-mode tap sends the card's
  * word, tinted with the section colour, to the chip bar of ACSView and goes back.
  */
module SectionDetail {
  import opened Common
  import opened Text
  import opened Models
  import opened AudioRecorder
  import opened Lists
  import opened Grid
  import opened ACS

  class SectionDetailView {
    /** The section shown; its live `cards` relationship is `grid.cards`. */
    const section: SectionItem
    const grid: CardGrid
    /** `dismiss()` has been called. */
    var dismissed: bool

    predicate Valid()
      reads this, grid, grid.audioService
    {
      grid.Valid()
    }

    constructor (lock: LockState, section: SectionItem, tempFiles: map<Url, Bytes>)
      ensures Valid() && fresh(grid) && fresh(grid.audioService)
      ensures this.section == section && grid.cards == section.cards && grid.lock == lock
      ensures !dismissed && !grid.isSelecting && !grid.isEditSelecting && !grid.isPressed
    {
      this.section := section;
      grid := new CardGrid(lock, section.cards, tempFiles);
      dismissed := false;
    }

    /**
      * A tap on a card. While selecting, the grid handles it. Otherwise the trimmed name is
      * posted with the section colour, which appends exactly one chip holding it to ACSView,
      * and the screen dismisses; a blank name does nothing at all.
      */
    method CardTapped(card: CardItem, acs: ACSView)
      requires Valid() && acs.Valid()
      modifies this, grid, acs
      ensures Valid() && acs.Valid()
      ensures old(grid.isSelecting) || old(grid.isEditSelecting) ==> dismissed == old(dismissed) && acs.chips == old(acs.chips)
      ensures !old(grid.isSelecting) && !old(grid.isEditSelecting) && AllWhitespace(card.name) ==>
        dismissed == old(dismissed) && acs.chips == old(acs.chips) && acs.nextChipId == old(acs.nextChipId)
      ensures !old(grid.isSelecting) && !old(grid.isEditSelecting) && !AllWhitespace(card.name) ==>
        && dismissed
        && acs.chips == old(acs.chips) + [Chip(old(acs.nextChipId), Trim(card.name), Some(section.colorHex))]
        && acs.nextChipId == old(acs.nextChipId) + 1
      ensures old(grid.isSelecting) ==>
        grid.selectedCardIDs == Toggle(old(grid.selectedCardIDs), card.id) && grid.currentlySelectedCard == old(grid.currentlySelectedCard)
      ensures !old(grid.isSelecting) && old(grid.isEditSelecting) ==>
        grid.currentlySelectedCard == Some(card) && grid.showEditSheet && grid.selectedCardIDs == old(grid.selectedCardIDs)
      ensures grid.isSelecting == old(grid.isSelecting) && grid.isEditSelecting == old(grid.isEditSelecting)
      ensures grid.cards == old(grid.cards) && acs.sections == old(acs.sections)
      ensures old(grid.isSelecting) || old(grid.isEditSelecting) ==>
        grid.State() == old(grid.State()).(selectedCardIDs := grid.selectedCardIDs,
          currentlySelectedCard := grid.currentlySelectedCard, showEditSheet := grid.showEditSheet)
      ensures !old(grid.isSelecting) && !old(grid.isEditSelecting) ==> grid.State() == old(grid.State())
      ensures acs.State() == old(acs.State()).(chips := acs.chips, nextChipId := acs.nextChipId)
    {
      if grid.isSelecting || grid.isEditSelecting {
        grid.CardTappedWhileSelecting(card);
        return;
      }
      var word := Trim(card.name);
      if word == [] {
        return;
      }
      TrimIdempotent(card.name);
      acs.ReceiveWord(word, Some(section.colorHex));
      dismissed := true;
    }
  }
}
