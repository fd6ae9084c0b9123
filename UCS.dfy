/**
  * `UCSView`: every card in the store, newest first. A normal-mode tap plays the
  * card's recording straight away; the add button first makes sure the hidden
  * "Default" section exists.
  */
module UCS {
  import opened Common
  import opened Text
  import opened Models
  import opened AudioRecorder
  import opened Lists
  import opened Grid

  const DefaultName: string := "Default"
  const DefaultColorHex: string := "#F5F5F5"
  const DefaultIconName: string := "square.stack.3d.up"

  /** The first section in store order whose name is exactly `name` (a fetch with `fetchLimit = 1`). */
  function FirstNamed(sections: seq<SectionItem>, name: string): (r: Option<SectionItem>)
    ensures r.None? <==> forall s :: s in sections ==> s.name != name
    ensures r.Some? ==> r.value in sections && r.value.name == name
  {
    if sections == [] then None
    else if sections[0].name == name then Some(sections[0])
    else FirstNamed(sections[1..], name)
  }

  /** How many sections are called "Default". */
  function CountNamed(sections: seq<SectionItem>, name: string): (n: nat)
    ensures n <= |sections|
    ensures n == 0 <==> forall s :: s in sections ==> s.name != name
  {
    if sections == [] then 0
    else (if sections[0].name == name then 1 else 0) + CountNamed(sections[1..], name)
  }

  /** Appending one section adds one to its name's count and nothing to any other. */
  lemma {:induction false} CountNamedAppend(sections: seq<SectionItem>, s: SectionItem, name: string)
    ensures CountNamed(sections + [s], name) == CountNamed(sections, name) + (if s.name == name then 1 else 0)
  {
    if sections != [] {
      assert (sections + [s])[1..] == sections[1..] + [s];
      CountNamedAppend(sections[1..], s, name);
    } else {
      assert [s][1..] == [];
    }
  }

  class UCSView {
    const grid: CardGrid
    /** The store's sections, as far as `ensureDefaultSection` sees them. */
    var sections: seq<SectionItem>
    var defaultSection: Option<SectionItem>
    var showAddCardSheet: bool

    /** A remembered default section is a section of the store named "Default". */
    predicate Valid()
      reads this, grid, grid.audioService
    {
      && grid.Valid()
      && (defaultSection.Some? ==> defaultSection.value in sections && defaultSection.value.name == DefaultName)
    }

    constructor (lock: LockState, cards: seq<CardItem>, sections: seq<SectionItem>, tempFiles: map<Url, Bytes>)
      ensures Valid() && fresh(grid) && fresh(grid.audioService)
      ensures grid.cards == cards && grid.lock == lock && this.sections == sections
      ensures defaultSection.None? && !showAddCardSheet
    {
      grid := new CardGrid(lock, cards, tempFiles);
      this.sections := sections;
      defaultSection := None;
      showAddCardSheet := false;
    }

    /**
      * `ensureDefaultSection()`. `fetchOk`: the fetch succeeds; `saveOk`: the save succeeds;
      * `newId` and `now` identify and date a section created here. Nothing happens once a
      * default is remembered or when the fetch throws; an existing "Default" is reused; only
      * when there is none is one created, and a failed save leaves it inserted but not remembered.
      */
    method EnsureDefaultSection(fetchOk: bool, saveOk: bool, newId: Id, now: int)
      requires Valid()
      modifies this
      ensures Valid()
      ensures old(defaultSection).Some? || !fetchOk ==> sections == old(sections) && defaultSection == old(defaultSection)
      ensures old(defaultSection).None? && fetchOk && CountNamed(old(sections), DefaultName) > 0 ==>
        sections == old(sections) && defaultSection == FirstNamed(sections, DefaultName)
      ensures old(defaultSection).None? && fetchOk && CountNamed(old(sections), DefaultName) == 0 ==>
        && sections == old(sections) + [NewSection(newId, DefaultName, DefaultColorHex, DefaultIconName, now)]
        && defaultSection == (if saveOk then Some(NewSection(newId, DefaultName, DefaultColorHex, DefaultIconName, now)) else None)
      ensures CountNamed(sections, DefaultName) == if CountNamed(old(sections), DefaultName) == 0 && old(defaultSection).None? && fetchOk then 1 else CountNamed(old(sections), DefaultName)
      ensures fetchOk ==> defaultSection.Some? || !saveOk
      ensures grid.cards == old(grid.cards) && showAddCardSheet == old(showAddCardSheet)
    {
      if defaultSection.Some? {
        return;
      }
      if !fetchOk {
        return;
      }
      var existing := FirstNamed(sections, DefaultName);
      if existing.Some? {
        defaultSection := existing;
      } else {
        var section := NewSection(newId, DefaultName, DefaultColorHex, DefaultIconName, now);
        CountNamedAppend(sections, section, DefaultName);
        sections := sections + [section];
        if !saveOk {
          return;
        }
        defaultSection := Some(section);
      }
    }

    /** The plus button (normal toolbar, disabled while locked): ensure the default section, then open the add sheet. */
    method AddTapped(fetchOk: bool, saveOk: bool, newId: Id, now: int)
      requires Valid()
      modifies this
      ensures Valid()
      ensures grid.isSelecting || grid.isEditSelecting || grid.lock.isLocked ==>
        sections == old(sections) && defaultSection == old(defaultSection) && showAddCardSheet == old(showAddCardSheet)
      ensures !grid.isSelecting && !grid.isEditSelecting && !grid.lock.isLocked ==> showAddCardSheet
      ensures !grid.isSelecting && !grid.isEditSelecting && !grid.lock.isLocked ==>
        && (old(defaultSection).Some? || !fetchOk ==> sections == old(sections) && defaultSection == old(defaultSection))
        && (old(defaultSection).None? && fetchOk && CountNamed(old(sections), DefaultName) > 0 ==>
              sections == old(sections) && defaultSection == FirstNamed(sections, DefaultName))
        && (old(defaultSection).None? && fetchOk && CountNamed(old(sections), DefaultName) == 0 ==>
              && sections == old(sections) + [NewSection(newId, DefaultName, DefaultColorHex, DefaultIconName, now)]
              && defaultSection == (if saveOk then Some(NewSection(newId, DefaultName, DefaultColorHex, DefaultIconName, now)) else None))
        && (fetchOk && saveOk ==> defaultSection.Some?)
      ensures CountNamed(sections, DefaultName) <= if CountNamed(old(sections), DefaultName) == 0 then 1 else CountNamed(old(sections), DefaultName)
      ensures grid.cards == old(grid.cards)
    {
      if grid.isSelecting || grid.isEditSelecting || grid.lock.isLocked {
        return;
      }
      EnsureDefaultSection(fetchOk, saveOk, newId, now);
      showAddCardSheet := true;
    }

    /**
      * A tap on a card. While selecting, the grid handles it. Otherwise a card without a
      * recording is ignored; one with a recording stops playback, loads the clip through a
      * temporary file and starts it, ignoring a throw. When the write fails, the file loaded
      * before (if any) is what plays.
      */
    method CardTapped(card: CardItem, a: Attempt)
      requires Valid()
      modifies this, grid, grid.audioService
      ensures Valid()
      ensures old(grid.isSelecting) || old(grid.isEditSelecting) || card.audioData.None? ==> unchanged(grid.audioService)
      ensures !old(grid.isSelecting) && !old(grid.isEditSelecting) && card.audioData.Some? ==>
        var url := UrlAfterLoad(old(grid.audioService.currentFileURL), a);
        var files := FilesAfterLoad(old(grid.audioService.files), a, card.audioData.value);
        && grid.audioService.currentFileURL == url
        && grid.audioService.files == files
        && (a.written ==> !grid.audioService.recording)
        && (grid.audioService.player.Some? <==> url.Some? && !StartThrows(url, files, a))
        && (grid.audioService.player.Some? ==>
              grid.audioService.player == url && grid.audioService.playbackCompletion == Some(Ignore))
        && (grid.audioService.player.None? ==> grid.audioService.playbackCompletion.None?)
      ensures !old(grid.isSelecting) && !old(grid.isEditSelecting) && card.audioData.Some? && a.sessionOk && a.playerOk ==>
        && (a.written ==> grid.audioService.player == Some(Url(a.tempName))
                          && grid.audioService.files[Url(a.tempName)] == card.audioData.value)
        && (!a.written && old(grid.audioService.currentFileURL).Some? && old(grid.audioService.currentFileURL).value in old(grid.audioService.files) ==>
              grid.audioService.player == old(grid.audioService.currentFileURL))
      ensures old(grid.isSelecting) ==>
        grid.selectedCardIDs == Toggle(old(grid.selectedCardIDs), card.id) && grid.currentlySelectedCard == old(grid.currentlySelectedCard)
      ensures !old(grid.isSelecting) && old(grid.isEditSelecting) ==>
        grid.currentlySelectedCard == Some(card) && grid.showEditSheet && grid.selectedCardIDs == old(grid.selectedCardIDs)
      ensures grid.isSelecting == old(grid.isSelecting) && grid.isEditSelecting == old(grid.isEditSelecting)
      ensures grid.cards == old(grid.cards) && sections == old(sections) && defaultSection == old(defaultSection)
      ensures old(grid.isSelecting) || old(grid.isEditSelecting) ==>
        grid.State() == old(grid.State()).(selectedCardIDs := grid.selectedCardIDs,
          currentlySelectedCard := grid.currentlySelectedCard, showEditSheet := grid.showEditSheet)
      ensures !old(grid.isSelecting) && !old(grid.isEditSelecting) ==> grid.State() == old(grid.State())
      ensures showAddCardSheet == old(showAddCardSheet)
    {
      if grid.isSelecting || grid.isEditSelecting {
        grid.CardTappedWhileSelecting(card);
        return;
      }
      if card.audioData.None? {
        return;
      }
      var data := card.audioData.value;
      grid.audioService.StopPlayback();
      grid.audioService.LoadExistingRecordingData(data, a.tempName, a.written);
      var _ := grid.audioService.StartPlayback(Ignore, a.sessionOk, a.playerOk);
    }
  }
}
