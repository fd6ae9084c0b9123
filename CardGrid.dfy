/**
  * The card grid that SectionDetailView and UCSView share line for line: the star
  * ordering, Photos-like delete selection, edit selection, and the normal toolbar
  * (lock, star, pencil, Select) with its `.disabled` rules. The two screens differ
  * only in where the cards come from and what a normal-mode tap does; those parts
  * live in the SectionDetail and UCS modules.
  */
module Grid {
  import opened Common
  import opened Models
  import opened Lists
  import opened AudioRecorder

  /** Every field of the grid, as one value, so that a method can state its whole new state. */
  datatype GridState = GridState(
    cards: seq<CardItem>, isPressed: bool, isSelecting: bool, selectedCardIDs: set<Id>,
    isEditSelecting: bool, currentlySelectedCard: Option<CardItem>, showEditSheet: bool)

  class CardGrid {
    /** The shared `LockState` environment object. */
    const lock: LockState
    /** The screen's own `AudioRecorderService`. */
    const audioService: AudioRecorderService
    /** The cards shown, before the star ordering (`section.cards`, or the `@Query` result). */
    var cards: seq<CardItem>
    /** The star: favourites first when on. */
    var isPressed: bool
    var isSelecting: bool
    var selectedCardIDs: set<Id>
    var isEditSelecting: bool
    var currentlySelectedCard: Option<CardItem>
    var showEditSheet: bool

    predicate Valid()
      reads this, audioService
    {
      audioService.Valid() && !(isSelecting && isEditSelecting)
    }

    constructor (lock: LockState, cards: seq<CardItem>, tempFiles: map<Url, Bytes>)
      ensures Valid() && fresh(audioService)
      ensures this.lock == lock && this.cards == cards
      ensures !audioService.recording && audioService.player.None? && audioService.currentFileURL.None?
      ensures audioService.playbackCompletion.None? && audioService.files == tempFiles
      ensures !isPressed && !isSelecting && !isEditSelecting && !showEditSheet
      ensures selectedCardIDs == {} && currentlySelectedCard.None?
    {
      this.lock := lock;
      audioService := new AudioRecorderService(tempFiles);
      this.cards := cards;
      isPressed := false;
      isSelecting := false;
      selectedCardIDs := {};
      isEditSelecting := false;
      currentlySelectedCard := None;
      showEditSheet := false;
    }

    function State(): GridState
      reads this
    {
      GridState(cards, isPressed, isSelecting, selectedCardIDs, isEditSelecting, currentlySelectedCard, showEditSheet)
    }

    /** `displayedCards`. */
    function DisplayedCards(): seq<CardItem>
      reads this
    {
      Displayed(cards, isPressed, (c: CardItem) => c.isFavorite)
    }

    /** The grid shows nothing exactly when there are no cards, whatever the star says. */
    lemma DisplayedEmptyIff()
      ensures DisplayedCards() == [] <==> cards == []
    {
      var d := DisplayedCards();
      assert |d| == |multiset(d)| == |multiset(cards)| == |cards|;
    }

    /** `toggleDeleteSelection(_:)`. */
    method ToggleDeleteSelection(card: CardItem)
      requires Valid()
      modifies this
      ensures Valid()
      ensures State() == old(State()).(selectedCardIDs := selectedCardIDs)
      ensures selectedCardIDs == Toggle(old(selectedCardIDs), card.id)
      ensures isSelecting == old(isSelecting) && isEditSelecting == old(isEditSelecting)
      ensures cards == old(cards) && currentlySelectedCard == old(currentlySelectedCard)
    {
      selectedCardIDs := Toggle(selectedCardIDs, card.id);
    }

    /** `exitDeleteSelectionMode()`. */
    method ExitDeleteSelectionMode()
      requires Valid()
      modifies this
      ensures Valid()
      ensures State() == old(State()).(isSelecting := false, selectedCardIDs := {})
      ensures !isSelecting && selectedCardIDs == {}
      ensures isEditSelecting == old(isEditSelecting) && currentlySelectedCard == old(currentlySelectedCard)
      ensures cards == old(cards) && isPressed == old(isPressed)
    {
      isSelecting := false;
      selectedCardIDs := {};
    }

    /** `performDeleteSelectedCards()`: deletes exactly the selected cards; nothing with an empty selection. */
    method PerformDeleteSelectedCards()
      requires Valid()
      modifies this
      ensures Valid()
      ensures State() == old(State()).(cards := cards)
      ensures cards == WithoutSelected(old(cards), old(selectedCardIDs), (c: CardItem) => c.id)
      ensures old(selectedCardIDs) == {} ==> cards == old(cards)
      ensures selectedCardIDs == old(selectedCardIDs) && isSelecting == old(isSelecting)
    {
      if selectedCardIDs == {} {
        return;
      }
      cards := WithoutSelected(cards, selectedCardIDs, (c: CardItem) => c.id);
    }

    /** The confirmation dialog's "Delete": delete the selection, then leave delete selection. */
    method ConfirmDelete()
      requires Valid()
      modifies this
      ensures Valid()
      ensures State() == old(State()).(cards := cards, isSelecting := false, selectedCardIDs := {})
      ensures cards == WithoutSelected(old(cards), old(selectedCardIDs), (c: CardItem) => c.id)
      ensures !isSelecting && selectedCardIDs == {}
    {
      PerformDeleteSelectedCards();
      ExitDeleteSelectionMode();
    }

    /**
      * A tap on a card while selecting (the lock does not block taps): toggles the card in
      * delete selection, or picks it for editing and opens the edit sheet.
      */
    method CardTappedWhileSelecting(card: CardItem)
      requires Valid()
      requires isSelecting || isEditSelecting
      modifies this
      ensures Valid()
      ensures State() == old(State()).(selectedCardIDs := selectedCardIDs,
        currentlySelectedCard := currentlySelectedCard, showEditSheet := showEditSheet)
      ensures isSelecting ==>
        selectedCardIDs == Toggle(old(selectedCardIDs), card.id) && currentlySelectedCard == old(currentlySelectedCard)
      ensures !isSelecting ==>
        currentlySelectedCard == Some(card) && showEditSheet && selectedCardIDs == old(selectedCardIDs)
      ensures isSelecting == old(isSelecting) && isEditSelecting == old(isEditSelecting) && cards == old(cards)
    {
      if isSelecting {
        selectedCardIDs := Toggle(selectedCardIDs, card.id);
      } else {
        currentlySelectedCard := Some(card);
        showEditSheet := true;
      }
    }

    /**
      * The lock button (normal toolbar only): flips the shared lock; locking stops playback,
      * leaves delete and edit selection and forgets the picked card.
      */
    method ToggleLock()
      requires Valid()
      modifies this, lock, audioService
      ensures Valid()
      ensures State() ==
        if old(isSelecting) || old(isEditSelecting) || !lock.isLocked then old(State())
        else old(State()).(isSelecting := false, selectedCardIDs := {}, isEditSelecting := false, currentlySelectedCard := None)
      ensures old(isSelecting) || old(isEditSelecting) ==> lock.isLocked == old(lock.isLocked) && unchanged(audioService)
      ensures !old(isSelecting) && !old(isEditSelecting) ==> lock.isLocked == !old(lock.isLocked)
      ensures !old(isSelecting) && !old(isEditSelecting) && lock.isLocked ==>
        && !isSelecting && !isEditSelecting && selectedCardIDs == {} && currentlySelectedCard.None?
        && audioService.player.None? && audioService.playbackCompletion.None?
      ensures audioService.currentFileURL == old(audioService.currentFileURL) && audioService.files == old(audioService.files)
      ensures cards == old(cards)
    {
      if isSelecting || isEditSelecting {
        return;
      }
      lock.isLocked := !lock.isLocked;
      if lock.isLocked {
        audioService.StopPlayback();
        ExitDeleteSelectionMode();
        isEditSelecting := false;
        currentlySelectedCard := None;
      }
    }

    /** The star button (normal toolbar, disabled while locked). */
    method StarTapped()
      requires Valid()
      modifies this
      ensures Valid()
      ensures State() == old(State()).(isPressed := isPressed)
      ensures isPressed == if !old(isSelecting) && !old(isEditSelecting) && !old(lock.isLocked) then !old(isPressed) else old(isPressed)
      ensures cards == old(cards) && isSelecting == old(isSelecting) && isEditSelecting == old(isEditSelecting)
    {
      if isSelecting || isEditSelecting || lock.isLocked {
        return;
      }
      isPressed := !isPressed;
    }

    /** The star on a card: flips that card's favourite flag, also while locked or selecting. */
    method CardStarTapped(id: Id)
      requires Valid()
      modifies this
      ensures Valid()
      ensures State() == old(State()).(cards := ToggleCardFavorite(old(cards), id))
      ensures cards == ToggleCardFavorite(old(cards), id)
      ensures isSelecting == old(isSelecting) && isEditSelecting == old(isEditSelecting)
      ensures selectedCardIDs == old(selectedCardIDs) && isPressed == old(isPressed)
    {
      cards := ToggleCardFavorite(cards, id);
    }

    /** "Select" (normal toolbar, disabled while locked or with no cards): delete selection, nothing selected. */
    method SelectTapped()
      requires Valid()
      modifies this
      ensures Valid()
      ensures State() ==
        if !old(isSelecting) && !old(isEditSelecting) && !old(lock.isLocked) && old(cards) != [] then
          old(State()).(isSelecting := true, selectedCardIDs := {}, currentlySelectedCard := None)
        else old(State())
      ensures !old(isSelecting) && !old(isEditSelecting) && !lock.isLocked && cards != [] ==>
        isSelecting && !isEditSelecting && selectedCardIDs == {} && currentlySelectedCard.None?
      ensures old(isSelecting) || old(isEditSelecting) || lock.isLocked || cards == [] ==>
        isSelecting == old(isSelecting) && isEditSelecting == old(isEditSelecting) && selectedCardIDs == old(selectedCardIDs)
      ensures cards == old(cards)
    {
      if isSelecting || isEditSelecting || lock.isLocked || DisplayedCards() == [] {
        return;
      }
      DisplayedEmptyIff();
      isSelecting := true;
      isEditSelecting := false;
      selectedCardIDs := {};
      currentlySelectedCard := None;
    }

    /** The pencil (normal toolbar, disabled while locked or with no cards): edit selection, nothing picked. */
    method EditTapped()
      requires Valid()
      modifies this
      ensures Valid()
      ensures State() ==
        if !old(isSelecting) && !old(isEditSelecting) && !old(lock.isLocked) && old(cards) != [] then
          old(State()).(isEditSelecting := true, currentlySelectedCard := None)
        else old(State())
      ensures !old(isSelecting) && !old(isEditSelecting) && !lock.isLocked && cards != [] ==>
        isEditSelecting && !isSelecting && currentlySelectedCard.None?
      ensures old(isSelecting) || old(isEditSelecting) || lock.isLocked || cards == [] ==>
        isSelecting == old(isSelecting) && isEditSelecting == old(isEditSelecting)
      ensures cards == old(cards) && selectedCardIDs == old(selectedCardIDs)
    {
      if isSelecting || isEditSelecting || lock.isLocked || DisplayedCards() == [] {
        DisplayedEmptyIff();
        return;
      }
      DisplayedEmptyIff();
      isEditSelecting := true;
      currentlySelectedCard := None;
    }

    /** "Cancel" or "Done" in edit selection (disabled while locked): back to normal mode. */
    method FinishEditSelection()
      requires Valid()
      modifies this
      ensures Valid()
      ensures State() ==
        if old(isEditSelecting) && !old(lock.isLocked) then old(State()).(isEditSelecting := false, currentlySelectedCard := None)
        else old(State())
      ensures old(isEditSelecting) && !lock.isLocked ==> !isEditSelecting && currentlySelectedCard.None?
      ensures !(old(isEditSelecting) && !lock.isLocked) ==> isEditSelecting == old(isEditSelecting)
      ensures isSelecting == old(isSelecting) && cards == old(cards)
    {
      if !isEditSelecting || lock.isLocked {
        return;
      }
      isEditSelecting := false;
      currentlySelectedCard := None;
    }

    /** "Cancel" in delete selection (disabled while locked). */
    method CancelDeleteSelection()
      requires Valid()
      modifies this
      ensures Valid()
      ensures State() ==
        if old(isSelecting) && !old(lock.isLocked) then old(State()).(isSelecting := false, selectedCardIDs := {})
        else old(State())
      ensures old(isSelecting) && !lock.isLocked ==> !isSelecting && selectedCardIDs == {}
      ensures !(old(isSelecting) && !lock.isLocked) ==>
        isSelecting == old(isSelecting) && selectedCardIDs == old(selectedCardIDs)
      ensures cards == old(cards)
    {
      if !isSelecting || lock.isLocked {
        return;
      }
      ExitDeleteSelectionMode();
    }
  }
}
