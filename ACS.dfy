/**
  * `ACSView`: the sections screen. It collects tapped card words as chips,
  * hands the chip texts to the combined-sentence sheet, orders sections with
  * the star, runs the Photos-like delete and edit selection, and owns the
  * page lock toggle.
  */
module ACS {
  import opened Common
  import opened Text
  import opened Models
  import opened Lists
  import opened AudioRecorder
  import opened CombinedSentence

  /** A collected word, with the colour of the section it came from; `id` stands for its `UUID`. */
  datatype Chip = Chip(id: nat, text: string, colorHex: Option<string>)

  /** Chip ids strictly increase along the bar (arrival order) and stay below the next fresh id. */
  predicate IdsIncreasing(chips: seq<Chip>, bound: nat) {
    && (forall i, j :: 0 <= i < j < |chips| ==> chips[i].id < chips[j].id)
    && (forall i :: 0 <= i < |chips| ==> chips[i].id < bound)
  }

  /** Every chip holds a non-empty, already trimmed word. */
  predicate TrimmedWords(chips: seq<Chip>) {
    forall i :: 0 <= i < |chips| ==> chips[i].text != [] && IsTrimmed(chips[i].text)
  }

  /** `chips.removeAll { $0.id == id }`. */
  function RemoveChipWithId(chips: seq<Chip>, id: nat): seq<Chip> {
    if chips == [] then []
    else if chips[0].id == id then RemoveChipWithId(chips[1..], id)
    else [chips[0]] + RemoveChipWithId(chips[1..], id)
  }

  /** Removal keeps exactly the chips with other ids, as an order-preserving sublist. */
  lemma {:induction false} RemoveChipWithIdKeepsOthers(chips: seq<Chip>, id: nat)
    ensures forall c :: c in RemoveChipWithId(chips, id) <==> c in chips && c.id != id
    ensures IsSubsequence(RemoveChipWithId(chips, id), chips)
  {
    if chips != [] {
      RemoveChipWithIdKeepsOthers(chips[1..], id);
      var rest := RemoveChipWithId(chips[1..], id);
      if chips[0].id != id {
        assert ([chips[0]] + rest)[1..] == rest;
      }
      assert chips == [chips[0]] + chips[1..];
    }
  }

  /** Removing an id no chip carries changes nothing. */
  lemma {:induction false} RemoveAbsentChip(chips: seq<Chip>, id: nat)
    requires forall i :: 0 <= i < |chips| ==> chips[i].id != id
    ensures RemoveChipWithId(chips, id) == chips
  {
    if chips != [] {
      RemoveAbsentChip(chips[1..], id);
    }
  }

  /** Dropping the first chip keeps the ids increasing, and the first id is below all the others. */
  lemma IdsIncreasingTail(chips: seq<Chip>, bound: nat)
    requires IdsIncreasing(chips, bound) && chips != []
    ensures IdsIncreasing(chips[1..], bound)
    ensures forall i :: 0 <= i < |chips[1..]| ==> chips[0].id < chips[1..][i].id
  {
    forall i | 0 <= i < |chips[1..]| ensures chips[0].id < chips[1..][i].id {
      assert chips[1..][i] == chips[i + 1];
    }
  }

  /** With distinct ids, removing the id of chip `k` removes that chip and only it, keeping the others' order. */
  lemma {:induction false} RemoveExactlyOneChip(chips: seq<Chip>, k: nat, bound: nat)
    requires IdsIncreasing(chips, bound) && k < |chips|
    ensures RemoveChipWithId(chips, chips[k].id) == chips[..k] + chips[k + 1..]
  {
    var id := chips[k].id;
    IdsIncreasingTail(chips, bound);
    if k == 0 {
      RemoveAbsentChip(chips[1..], id);
      assert RemoveChipWithId(chips, id) == RemoveChipWithId(chips[1..], id);
    } else {
      assert chips[0].id != id;
      assert chips[1..][k - 1] == chips[k];
      RemoveExactlyOneChip(chips[1..], k - 1, bound);
      assert RemoveChipWithId(chips, id) == [chips[0]] + RemoveChipWithId(chips[1..], id);
      assert chips[1..][..k - 1] == chips[1..k];
      assert chips[1..][k - 1 + 1..] == chips[k + 1..];
      assert chips[..k] == [chips[0]] + chips[1..k];
    }
  }

  /** Removing chips keeps the ids increasing. */
  lemma {:induction false} RemoveKeepsIdsIncreasing(chips: seq<Chip>, id: nat, bound: nat)
    requires IdsIncreasing(chips, bound)
    ensures IdsIncreasing(RemoveChipWithId(chips, id), bound)
  {
    if chips != [] {
      IdsIncreasingTail(chips, bound);
      RemoveKeepsIdsIncreasing(chips[1..], id, bound);
      var rest := RemoveChipWithId(chips[1..], id);
      if chips[0].id != id {
        RemoveChipWithIdKeepsOthers(chips[1..], id);
        forall c | c in rest ensures chips[0].id < c.id {
          var m :| 0 <= m < |chips[1..]| && chips[1..][m] == c;
        }
        ConsIdsIncreasing(chips[0], rest, bound);
      }
    }
  }

  /** A chip with a smaller id than every chip of an increasing list can go in front of it. */
  lemma ConsIdsIncreasing(x: Chip, rest: seq<Chip>, bound: nat)
    requires IdsIncreasing(rest, bound) && x.id < bound
    requires forall c :: c in rest ==> x.id < c.id
    ensures IdsIncreasing([x] + rest, bound)
  {
    var r := [x] + rest;
    forall i, j | 0 <= i < j < |r| ensures r[i].id < r[j].id {
      assert r[j] == rest[j - 1];
      if i > 0 {
        assert r[i] == rest[i - 1];
      }
    }
  }

  /** Removing chips keeps every word trimmed and non-empty. */
  lemma RemoveKeepsTrimmedWords(chips: seq<Chip>, id: nat)
    requires TrimmedWords(chips)
    ensures TrimmedWords(RemoveChipWithId(chips, id))
  {
    var r := RemoveChipWithId(chips, id);
    RemoveChipWithIdKeepsOthers(chips, id);
    forall i | 0 <= i < |r| ensures r[i].text != [] && IsTrimmed(r[i].text) {
      assert r[i] in chips;
    }
  }

  /** `chips.map { $0.text }`. */
  function ChipTexts(chips: seq<Chip>): (words: seq<string>)
    ensures |words| == |chips|
    ensures forall i :: 0 <= i < |chips| ==> words[i] == chips[i].text
  {
    seq(|chips|, i requires 0 <= i < |chips| => chips[i].text)
  }

  /** The first character of a join is the first character of the first word. */
  lemma JoinStartsWithFirstWord(words: seq<string>)
    requires words != [] && words[0] != []
    ensures JoinWithSpaces(words) != [] && JoinWithSpaces(words)[0] == words[0][0]
  {
  }

  /** The sheet shows a sentence exactly when there is at least one chip. */
  lemma ChipSentenceEmptyIff(chips: seq<Chip>)
    requires TrimmedWords(chips)
    ensures Sentence(ChipTexts(chips)) == [] <==> chips == []
  {
    var words := ChipTexts(chips);
    if chips != [] {
      var w := chips[0].text;
      JoinStartsWithFirstWord(words);
      assert !AllWhitespace(JoinWithSpaces(words));
    } else {
      assert JoinWithSpaces(words) == [];
    }
  }

  /** Every field of the sections page, as one value, so that a method can state its whole new state. */
  datatype PageState = PageState(
    sections: seq<SectionItem>, isPageLocked: bool, isPressed: bool,
    isSelecting: bool, selectedSectionIDs: set<Id>, isEditSelecting: bool,
    currentlySelectedSection: Option<SectionItem>, editSheetShown: bool,
    chips: seq<Chip>, nextChipId: nat, showWordsSheet: bool)

  class ACSView {
    /** The shared `LockState` environment object. */
    const lock: LockState
    /** `@Query` result, newest first. */
    var sections: seq<SectionItem>
    var isPageLocked: bool
    /** The star: favourites first when on. */
    var isPressed: bool
    var isSelecting: bool
    var selectedSectionIDs: set<Id>
    var isEditSelecting: bool
    var currentlySelectedSection: Option<SectionItem>
    /** `editCard`: the edit-section sheet is presented. */
    var editSheetShown: bool
    var chips: seq<Chip>
    /** Source of fresh chip ids (the `UUID()` each new chip gets). */
    var nextChipId: nat
    var showWordsSheet: bool

    predicate Valid()
      reads this
    {
      && IdsIncreasing(chips, nextChipId)
      && TrimmedWords(chips)
      && !(isSelecting && isEditSelecting)
    }

    constructor (lock: LockState, sections: seq<SectionItem>)
      ensures Valid()
      ensures this.lock == lock && this.sections == sections
      ensures !isPageLocked && !isPressed && !isSelecting && !isEditSelecting && !editSheetShown && !showWordsSheet
      ensures selectedSectionIDs == {} && currentlySelectedSection.None? && chips == [] && nextChipId == 0
    {
      this.lock := lock;
      this.sections := sections;
      isPageLocked := false;
      isPressed := false;
      isSelecting := false;
      selectedSectionIDs := {};
      isEditSelecting := false;
      currentlySelectedSection := None;
      editSheetShown := false;
      chips := [];
      nextChipId := 0;
      showWordsSheet := false;
    }

    function State(): PageState
      reads this
    {
      PageState(sections, isPageLocked, isPressed, isSelecting, selectedSectionIDs, isEditSelecting,
        currentlySelectedSection, editSheetShown, chips, nextChipId, showWordsSheet)
    }

    /** The sections in grid order. */
    function DisplayedSections(): seq<SectionItem>
      reads this
    {
      Displayed(sections, isPressed, (s: SectionItem) => s.isFavorite)
    }

    /** `onAppear`: the page lock follows the shared lock. */
    method OnAppear()
      modifies this
      ensures isPageLocked == lock.isLocked
      ensures State() == old(State()).(isPageLocked := lock.isLocked)
      ensures chips == old(chips) && nextChipId == old(nextChipId) && isSelecting == old(isSelecting)
      ensures isEditSelecting == old(isEditSelecting)
    {
      isPageLocked := lock.isLocked;
    }

    /**
      * `onReceive(.cardWordSelected)`: a blank word is ignored; otherwise exactly one chip
      * holding the trimmed word is appended at the end, duplicates allowed.
      */
    method ReceiveWord(word: string, colorHex: Option<string>)
      requires Valid()
      modifies this
      ensures Valid()
      ensures State() == old(State()).(chips := chips, nextChipId := nextChipId)
      ensures AllWhitespace(word) ==> chips == old(chips) && nextChipId == old(nextChipId)
      ensures !AllWhitespace(word) ==>
        chips == old(chips) + [Chip(old(nextChipId), Trim(word), colorHex)] && nextChipId == old(nextChipId) + 1
      ensures sections == old(sections) && isSelecting == old(isSelecting) && isEditSelecting == old(isEditSelecting)
    {
      var trimmed := Trim(word);
      if trimmed == [] {
        return;
      }
      chips := chips + [Chip(nextChipId, trimmed, colorHex)];
      nextChipId := nextChipId + 1;
    }

    /** The remove button on a chip pill: drops that chip and keeps the others in order. */
    method RemoveChip(id: nat)
      requires Valid()
      modifies this
      ensures Valid()
      ensures State() == old(State()).(chips := chips)
      ensures chips == RemoveChipWithId(old(chips), id)
      ensures forall k :: 0 <= k < |old(chips)| && old(chips)[k].id == id ==> chips == old(chips)[..k] + old(chips)[k + 1..]
      ensures nextChipId == old(nextChipId) && sections == old(sections)
    {
      RemoveKeepsIdsIncreasing(chips, id, nextChipId);
      RemoveKeepsTrimmedWords(chips, id);
      forall k | 0 <= k < |chips| && chips[k].id == id
        ensures RemoveChipWithId(chips, id) == chips[..k] + chips[k + 1..]
      {
        RemoveExactlyOneChip(chips, k, nextChipId);
      }
      chips := RemoveChipWithId(chips, id);
    }

    /** "Clear": empties the chip bar. */
    method ClearChips()
      requires Valid()
      modifies this
      ensures Valid()
      ensures State() == old(State()).(chips := [])
      ensures chips == [] && nextChipId == old(nextChipId) && sections == old(sections)
    {
      chips := [];
    }

    /** The bottom "Done" button: presents the sentence sheet built on the chip texts, in chip order. */
    method DoneTapped(store: seq<CardItem>, tempFiles: map<Url, Bytes>) returns (sheet: CombinedSentenceView)
      requires Valid()
      modifies this
      ensures Valid()
      ensures State() == old(State()).(showWordsSheet := true)
      ensures showWordsSheet && chips == old(chips)
      ensures fresh(sheet) && fresh(sheet.audioService) && sheet.Valid()
      ensures sheet.words == ChipTexts(chips) && sheet.store == store
      ensures !sheet.isPlayingQueue && sheet.audioQueue == []
    {
      showWordsSheet := true;
      sheet := new CombinedSentenceView(ChipTexts(chips), store, tempFiles);
    }

    /** `toggleDeleteSelection(_:)`. */
    method ToggleDeleteSelection(id: Id)
      requires Valid()
      modifies this
      ensures Valid()
      ensures State() == old(State()).(selectedSectionIDs := selectedSectionIDs)
      ensures selectedSectionIDs == Toggle(old(selectedSectionIDs), id)
      ensures isSelecting == old(isSelecting) && sections == old(sections) && chips == old(chips)
    {
      selectedSectionIDs := Toggle(selectedSectionIDs, id);
    }

    /** `exitDeleteSelectionMode()`. */
    method ExitDeleteSelectionMode()
      requires Valid()
      modifies this
      ensures Valid()
      ensures State() == old(State()).(isSelecting := false, selectedSectionIDs := {})
      ensures !isSelecting && selectedSectionIDs == {}
      ensures isEditSelecting == old(isEditSelecting) && currentlySelectedSection == old(currentlySelectedSection)
      ensures sections == old(sections) && chips == old(chips) && nextChipId == old(nextChipId)
      ensures isPageLocked == old(isPageLocked) && isPressed == old(isPressed)
    {
      isSelecting := false;
      selectedSectionIDs := {};
    }

    /** `performDeleteSelectedSections()`: deletes exactly the selected sections; nothing with an empty selection. */
    method PerformDeleteSelectedSections()
      requires Valid()
      modifies this
      ensures Valid()
      ensures State() == old(State()).(sections := sections)
      ensures sections == WithoutSelected(old(sections), old(selectedSectionIDs), (s: SectionItem) => s.id)
      ensures old(selectedSectionIDs) == {} ==> sections == old(sections)
      ensures selectedSectionIDs == old(selectedSectionIDs) && isSelecting == old(isSelecting) && chips == old(chips)
    {
      if selectedSectionIDs == {} {
        return;
      }
      sections := WithoutSelected(sections, selectedSectionIDs, (s: SectionItem) => s.id);
    }

    /** The confirmation dialog's "Delete": delete the selection, then leave delete selection. */
    method ConfirmDelete()
      requires Valid()
      modifies this
      ensures Valid()
      ensures State() == old(State()).(sections := sections, isSelecting := false, selectedSectionIDs := {})
      ensures sections == WithoutSelected(old(sections), old(selectedSectionIDs), (s: SectionItem) => s.id)
      ensures !isSelecting && selectedSectionIDs == {} && chips == old(chips)
    {
      PerformDeleteSelectedSections();
      ExitDeleteSelectionMode();
    }

    /**
      * A tap on a section while selecting: ignored while the page is locked; toggles the
      * section in delete selection, or picks it for editing and opens the edit sheet.
      */
    method SectionTappedWhileSelecting(section: SectionItem)
      requires Valid()
      requires isSelecting || isEditSelecting
      modifies this
      ensures Valid()
      ensures State() == old(State()).(selectedSectionIDs := selectedSectionIDs,
        currentlySelectedSection := currentlySelectedSection, editSheetShown := editSheetShown)
      ensures old(isPageLocked) ==>
        selectedSectionIDs == old(selectedSectionIDs) && currentlySelectedSection == old(currentlySelectedSection)
        && editSheetShown == old(editSheetShown)
      ensures !old(isPageLocked) && isSelecting ==>
        selectedSectionIDs == Toggle(old(selectedSectionIDs), section.id) && currentlySelectedSection == old(currentlySelectedSection)
        && editSheetShown == old(editSheetShown)
      ensures !old(isPageLocked) && !isSelecting ==>
        currentlySelectedSection == Some(section) && editSheetShown && selectedSectionIDs == old(selectedSectionIDs)
      ensures isSelecting == old(isSelecting) && isEditSelecting == old(isEditSelecting) && sections == old(sections)
    {
      if isPageLocked {
        return;
      }
      if isSelecting {
        selectedSectionIDs := Toggle(selectedSectionIDs, section.id);
      } else if isEditSelecting {
        currentlySelectedSection := Some(section);
        editSheetShown := true;
      }
    }

    /**
      * A tap on a section tile in a selection mode, as the view is laid out: the tile
      * carries `.disabled(isSelecting)`, so in delete selection the tap never reaches the
      * handler above, while in edit selection it does.
      */
    method SectionTileTapped(section: SectionItem)
      requires Valid()
      requires isSelecting || isEditSelecting
      modifies this
      ensures Valid()
      ensures State() == old(State()).(selectedSectionIDs := selectedSectionIDs,
        currentlySelectedSection := currentlySelectedSection, editSheetShown := editSheetShown)
      ensures old(isSelecting) || old(isPageLocked) ==>
        selectedSectionIDs == old(selectedSectionIDs) && currentlySelectedSection == old(currentlySelectedSection)
        && editSheetShown == old(editSheetShown)
      ensures !old(isSelecting) && !old(isPageLocked) ==>
        currentlySelectedSection == Some(section) && editSheetShown && selectedSectionIDs == old(selectedSectionIDs)
      ensures isSelecting == old(isSelecting) && isEditSelecting == old(isEditSelecting) && sections == old(sections)
    {
      if isSelecting {
        return;
      }
      SectionTappedWhileSelecting(section);
    }

    /**
      * As laid out, "Select", a tap on a section and "Delete" remove nothing: the
      * disabled tile never adds the section to the selection.
      */
    method DeleteOneSectionAsWritten(section: SectionItem)
      requires Valid() && !isSelecting && !isEditSelecting && !isPageLocked && !lock.isLocked
      modifies this
      ensures Valid()
      ensures State() == old(State()).(selectedSectionIDs := {}, currentlySelectedSection := None)
      ensures sections == old(sections) && !isSelecting && selectedSectionIDs == {}
    {
      SelectTapped();
      SectionTileTapped(section);
      ConfirmDelete();
    }

    /**
      * As intended, with the tap reaching the handler, the same steps remove exactly the
      * sections carrying the tapped section's id and keep the rest in order.
      */
    method DeleteOneSectionAsIntended(section: SectionItem)
      requires Valid() && !isSelecting && !isEditSelecting && !isPageLocked && !lock.isLocked
      modifies this
      ensures Valid()
      ensures State() == old(State()).(sections := sections, selectedSectionIDs := {}, currentlySelectedSection := None)
      ensures sections == WithoutSelected(old(sections), {section.id}, (s: SectionItem) => s.id)
      ensures forall s :: s in sections <==> s in old(sections) && s.id != section.id
      ensures !isSelecting && selectedSectionIDs == {}
    {
      SelectTapped();
      SectionTappedWhileSelecting(section);
      assert selectedSectionIDs == {section.id};
      ConfirmDelete();
    }

    /**
      * The lock button (normal toolbar only): flips the page lock and publishes it to the
      * shared lock; locking leaves edit and delete selection and forgets the picked section.
      */
    method ToggleLock()
      requires Valid()
      modifies this, lock
      ensures Valid()
      ensures State() ==
        if old(isSelecting) || old(isEditSelecting) then old(State())
        else if isPageLocked then old(State()).(isPageLocked := true, isSelecting := false, selectedSectionIDs := {},
          isEditSelecting := false, currentlySelectedSection := None)
        else old(State()).(isPageLocked := false)
      ensures old(isSelecting) || old(isEditSelecting) ==> isPageLocked == old(isPageLocked) && lock.isLocked == old(lock.isLocked)
      ensures !old(isSelecting) && !old(isEditSelecting) ==> isPageLocked == !old(isPageLocked) && lock.isLocked == isPageLocked
      ensures !old(isSelecting) && !old(isEditSelecting) && isPageLocked ==>
        !isEditSelecting && !isSelecting && selectedSectionIDs == {} && currentlySelectedSection.None?
      ensures chips == old(chips) && sections == old(sections)
    {
      if isSelecting || isEditSelecting {
        return;
      }
      isPageLocked := !isPageLocked;
      lock.isLocked := isPageLocked;
      if isPageLocked {
        isEditSelecting := false;
        ExitDeleteSelectionMode();
        currentlySelectedSection := None;
      }
    }

    /** The star button (normal toolbar, disabled while locked). */
    method StarTapped()
      requires Valid()
      modifies this
      ensures Valid()
      ensures isPressed == if !old(isSelecting) && !old(isEditSelecting) && !old(isPageLocked) && !old(lock.isLocked) then !old(isPressed) else old(isPressed)
      ensures State() == old(State()).(isPressed := isPressed)
      ensures sections == old(sections) && chips == old(chips)
    {
      if isSelecting || isEditSelecting || isPageLocked || lock.isLocked {
        return;
      }
      isPressed := !isPressed;
    }

    /**
      * The star on a section tile: flips that section's favourite flag. The button is
      * disabled while locked, and in delete selection the whole tile is disabled.
      */
    method SectionStarTapped(id: Id)
      requires Valid()
      modifies this
      ensures Valid()
      ensures old(isPageLocked) || old(lock.isLocked) || old(isSelecting) ==> sections == old(sections)
      ensures !old(isPageLocked) && !old(lock.isLocked) && !old(isSelecting) ==> sections == ToggleSectionFavorite(old(sections), id)
      ensures State() == old(State()).(sections := sections)
      ensures chips == old(chips) && isSelecting == old(isSelecting) && isEditSelecting == old(isEditSelecting)
      ensures selectedSectionIDs == old(selectedSectionIDs) && isPressed == old(isPressed)
    {
      if isPageLocked || lock.isLocked || isSelecting {
        return;
      }
      sections := ToggleSectionFavorite(sections, id);
    }

    /** "Select" (normal toolbar, disabled while locked): enters delete selection with nothing selected. */
    method SelectTapped()
      requires Valid()
      modifies this
      ensures Valid()
      ensures !old(isSelecting) && !old(isEditSelecting) && !old(isPageLocked) && !old(lock.isLocked) ==>
        isSelecting && !isEditSelecting && selectedSectionIDs == {} && currentlySelectedSection.None?
      ensures old(isSelecting) || old(isEditSelecting) || old(isPageLocked) || old(lock.isLocked) ==>
        isSelecting == old(isSelecting) && isEditSelecting == old(isEditSelecting) && selectedSectionIDs == old(selectedSectionIDs)
      ensures sections == old(sections) && chips == old(chips) && isPageLocked == old(isPageLocked)
      ensures State() == old(State()).(isSelecting := isSelecting, selectedSectionIDs := selectedSectionIDs,
        currentlySelectedSection := currentlySelectedSection)
    {
      if isSelecting || isEditSelecting || isPageLocked || lock.isLocked {
        return;
      }
      isSelecting := true;
      isEditSelecting := false;
      selectedSectionIDs := {};
      currentlySelectedSection := None;
    }

    /** The pencil (normal toolbar, disabled while locked): enters edit selection with nothing picked. */
    method EditTapped()
      requires Valid()
      modifies this
      ensures Valid()
      ensures !old(isSelecting) && !old(isEditSelecting) && !old(isPageLocked) && !old(lock.isLocked) ==>
        isEditSelecting && !isSelecting && currentlySelectedSection.None?
      ensures old(isSelecting) || old(isEditSelecting) || old(isPageLocked) || old(lock.isLocked) ==>
        isSelecting == old(isSelecting) && isEditSelecting == old(isEditSelecting) && currentlySelectedSection == old(currentlySelectedSection)
      ensures State() == old(State()).(isEditSelecting := isEditSelecting, currentlySelectedSection := currentlySelectedSection)
      ensures sections == old(sections) && chips == old(chips)
    {
      if isSelecting || isEditSelecting || isPageLocked || lock.isLocked {
        return;
      }
      isEditSelecting := true;
      currentlySelectedSection := None;
    }

    /** "Cancel" or "Done" in edit selection (disabled while locked): back to normal mode. */
    method FinishEditSelection()
      requires Valid()
      modifies this
      ensures Valid()
      ensures old(isEditSelecting) && !old(isPageLocked) && !old(lock.isLocked) ==> !isEditSelecting && currentlySelectedSection.None?
      ensures !(old(isEditSelecting) && !old(isPageLocked) && !old(lock.isLocked)) ==> State() == old(State())
      ensures State() == old(State()).(isEditSelecting := isEditSelecting, currentlySelectedSection := currentlySelectedSection)
      ensures isSelecting == old(isSelecting) && sections == old(sections) && chips == old(chips)
    {
      if !isEditSelecting || isPageLocked || lock.isLocked {
        return;
      }
      isEditSelecting := false;
      currentlySelectedSection := None;
    }

    /** "Cancel" in delete selection (disabled while locked). */
    method CancelDeleteSelection()
      requires Valid()
      modifies this
      ensures Valid()
      ensures old(isSelecting) && !old(isPageLocked) && !old(lock.isLocked) ==> !isSelecting && selectedSectionIDs == {}
      ensures !(old(isSelecting) && !old(isPageLocked) && !old(lock.isLocked)) ==> State() == old(State())
      ensures State() == old(State()).(isSelecting := isSelecting, selectedSectionIDs := selectedSectionIDs)
      ensures sections == old(sections) && chips == old(chips)
    {
      if !isSelecting || isPageLocked || lock.isLocked {
        return;
      }
      ExitDeleteSelectionMode();
    }
  }
}
