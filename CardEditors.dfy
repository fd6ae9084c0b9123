/**
  * The card sheets. `AddCardView` appends a new card to its section; `EditCardView`
  * rewrites one card. Both carry the same trash / record / play controls over their
  * own `AudioRecorderService`, modelled once as `VoiceControls`.
  */
module CardEditors {
  import opened Common
  import opened Text
  import opened Models
  import opened AudioRecorder

  /** `canSave`: the Save button is enabled exactly when the trimmed name is not empty. */
  function CanSave(name: string): (ok: bool)
    ensures ok <==> !AllWhitespace(name)
    ensures ok ==> Trim(name) != [] && IsTrimmed(Trim(name))
  {
    Trim(name) != []
  }

  /** `uiImage.jpegData(compressionQuality: 0.8)` for the picked image, if there is one. */
  function JpegOf(picked: Option<Image>): (r: Option<Bytes>)
    ensures picked.None? ==> r.None?
  {
    if picked.Some? then picked.value.jpeg else None
  }

  /** The record / play / trash controls and the flags that drive their icons. */
  class VoiceControls {
    const audioService: AudioRecorderService
    var isRecording: bool
    var isPlaying: bool
    var hasRecordedAudio: bool

    /**
      * The flags mirror the service: recording exactly while it records, playing exactly
      * while the "clear `isPlaying`" completion is pending, and a saved recording always
      * has a current file.
      */
    predicate Valid()
      reads this, audioService
    {
      && audioService.Valid()
      && isRecording == audioService.recording
      && (isPlaying <==> audioService.playbackCompletion.Some?)
      && (audioService.playbackCompletion.Some? ==> audioService.playbackCompletion.value == ClearIsPlaying)
      && (hasRecordedAudio ==> audioService.currentFileURL.Some?)
    }

    /** `try? Data(contentsOf: currentFileURL)`: the bytes of the current file, if it exists. */
    function RecordedAudio(): (r: Option<Bytes>)
      reads this, audioService
      ensures audioService.currentFileURL.None? ==> r.None?
      ensures r.Some? <==> audioService.currentFileURL.Some? && audioService.currentFileURL.value in audioService.files
      ensures r.Some? ==> r.value == audioService.files[audioService.currentFileURL.value]
    {
      var url := audioService.currentFileURL;
      if url.Some? && url.value in audioService.files then Some(audioService.files[url.value]) else None
    }

    constructor (tempFiles: map<Url, Bytes>)
      ensures Valid() && fresh(audioService)
      ensures !isRecording && !isPlaying && !hasRecordedAudio
      ensures audioService.currentFileURL.None? && audioService.files == tempFiles
    {
      audioService := new AudioRecorderService(tempFiles);
      isRecording := false;
      isPlaying := false;
      hasRecordedAudio := false;
    }

    /**
      * What `EditCardView.init` does with a card's recording: write it to the temporary file
      * `<uuid>.m4a` (`writeOk`: the write succeeds), reset the service, point it at that
      * file whether or not the write succeeded, and mark the audio as recorded.
      */
    method LoadCardAudio(data: Bytes, uuid: nat, writeOk: bool)
      requires Valid() && !isRecording && !isPlaying && audioService.currentFileURL.None?
      modifies this, audioService
      ensures Valid()
      ensures hasRecordedAudio && !isRecording && !isPlaying
      ensures audioService.currentFileURL == Some(Url(uuid))
      ensures writeOk ==> RecordedAudio() == Some(data)
      ensures !writeOk && Url(uuid) !in old(audioService.files) ==> RecordedAudio().None?
    {
      var url := Url(uuid);
      if writeOk {
        audioService.files := audioService.files[url := data];
      }
      audioService.DeleteRecording();
      audioService.StopPlayback();
      audioService.LoadExistingRecordingFrom(url);
      hasRecordedAudio := true;
    }

    /**
      * The record button. While recording it stops and marks the audio as recorded when there
      * is a current file. Otherwise it records only when permission is `granted` and
      * `startRecording` does not throw; `sessionOk`, `uuid`, `recorderOk` and `heard` are
      * what the service needs for that.
      */
    method HandleRecordTapped(granted: bool, sessionOk: bool, uuid: nat, recorderOk: bool, heard: Bytes)
      requires Valid()
      modifies this, audioService
      ensures Valid()
      ensures isPlaying == old(isPlaying)
      ensures old(isRecording) ==>
        !isRecording && hasRecordedAudio == audioService.currentFileURL.Some?
        && audioService.currentFileURL == old(audioService.currentFileURL) && audioService.files == old(audioService.files)
      ensures !old(isRecording) ==> hasRecordedAudio == old(hasRecordedAudio)
      ensures !old(isRecording) ==> (isRecording <==> granted && sessionOk && recorderOk)
      ensures !old(isRecording) && !granted ==> unchanged(audioService)
      ensures !old(isRecording) && isRecording ==>
        audioService.currentFileURL == Some(Url(uuid)) && RecordedAudio() == Some(heard)
    {
      if isRecording {
        audioService.StopRecording();
        isRecording := false;
        hasRecordedAudio := audioService.currentFileURL.Some?;
      } else {
        if !granted {
          return;
        }
        var threw := audioService.StartRecording(sessionOk, uuid, recorderOk, heard);
        if !threw {
          isRecording := true;
        }
      }
    }

    /**
      * The play button (disabled without a recording). While playing it stops; otherwise it
      * starts the current file and marks playing only when `startPlayback` did not throw.
      */
    method HandlePlayTapped(sessionOk: bool, playerOk: bool)
      requires Valid()
      modifies this, audioService
      ensures Valid()
      ensures !old(hasRecordedAudio) ==> isPlaying == old(isPlaying) && unchanged(audioService)
      ensures old(hasRecordedAudio) && old(isPlaying) ==> !isPlaying && audioService.player.None?
      ensures old(hasRecordedAudio) && !old(isPlaying) ==>
        && (isPlaying <==> audioService.currentFileURL.Some?
                           && !AudioRecorderService.StartFails(audioService.currentFileURL.value, audioService.files, sessionOk, playerOk))
        && (isPlaying ==> audioService.player == audioService.currentFileURL)
      ensures hasRecordedAudio == old(hasRecordedAudio) && isRecording == old(isRecording)
      ensures audioService.currentFileURL == old(audioService.currentFileURL) && audioService.files == old(audioService.files)
    {
      if !hasRecordedAudio {
        return;
      }
      if isPlaying {
        audioService.StopPlayback();
        isPlaying := false;
      } else {
        var threw := audioService.StartPlayback(ClearIsPlaying, sessionOk, playerOk);
        if !threw {
          isPlaying := true;
        }
      }
    }

    /** The player finished: the pending completion runs and clears `isPlaying`. */
    method OnPlaybackFinished()
      requires Valid()
      modifies this, audioService
      ensures Valid()
      ensures !isPlaying
      ensures hasRecordedAudio == old(hasRecordedAudio) && isRecording == old(isRecording)
      ensures audioService.currentFileURL == old(audioService.currentFileURL) && audioService.files == old(audioService.files)
    {
      var fired := audioService.AudioPlayerDidFinishPlaying();
      if fired == Some(ClearIsPlaying) {
        isPlaying := false;
      }
    }

    /** The trash button (disabled without a recording): deletes the file and clears all three flags. */
    method DeleteAudio()
      requires Valid()
      modifies this, audioService
      ensures Valid()
      ensures !old(hasRecordedAudio) ==> isRecording == old(isRecording) && isPlaying == old(isPlaying) && unchanged(audioService)
      ensures old(hasRecordedAudio) ==>
        !hasRecordedAudio && !isPlaying && !isRecording && audioService.currentFileURL.None? && RecordedAudio().None?
        && audioService.files == old(audioService.files) - {old(audioService.currentFileURL).value}
    {
      if !hasRecordedAudio {
        return;
      }
      audioService.DeleteRecording();
      hasRecordedAudio := false;
      isPlaying := false;
      isRecording := false;
    }
  }

  /** The card `AddCardView.save()` creates. */
  function NewCardFrom(id: Id, name: string, picked: Option<Image>, recorded: Option<Bytes>, now: int): (c: CardItem)
    ensures c.id == id && c.createdAt == now && !c.isFavorite
    ensures c.name == Trim(name) && IsTrimmed(c.name)
    ensures c.imageData == JpegOf(picked) && c.audioData == recorded
  {
    NewCard(id, Trim(name), JpegOf(picked), recorded, now)
  }

  /** `AddCardView`. */
  class AddCardView {
    /** The section the card goes into; `save()` appends to its `cards`. */
    var section: SectionItem
    var name: string
    var pickedImage: Option<Image>
    const voice: VoiceControls
    var dismissed: bool

    predicate Valid()
      reads this, voice, voice.audioService
    {
      voice.Valid()
    }

    constructor (section: SectionItem, tempFiles: map<Url, Bytes>)
      ensures Valid() && fresh(voice) && fresh(voice.audioService)
      ensures this.section == section && name == [] && pickedImage.None? && !dismissed
      ensures !voice.hasRecordedAudio
    {
      this.section := section;
      name := [];
      pickedImage := None;
      voice := new VoiceControls(tempFiles);
      dismissed := false;
    }

    /** A photo loaded from the library or taken with the camera; one that does not decode is ignored. */
    method ImagePicked(image: Option<Image>)
      modifies this
      ensures pickedImage == if image.Some? then image else old(pickedImage)
      ensures section == old(section) && name == old(name) && dismissed == old(dismissed)
    {
      if image.Some? {
        pickedImage := image;
      }
    }

    /**
      * "Save Card" (disabled unless `CanSave(name)`): appends exactly one card, with the trimmed
      * name, the picked image's JPEG and the current file's bytes, at the end of the section,
      * and dismisses. `newId` and `now` identify and date the new card.
      */
    method Save(newId: Id, now: int)
      requires Valid()
      modifies this
      ensures Valid()
      ensures !CanSave(name) ==> section == old(section) && dismissed == old(dismissed)
      ensures CanSave(name) ==>
        && section == old(section).(cards := old(section).cards + [NewCardFrom(newId, name, pickedImage, voice.RecordedAudio(), now)])
        && dismissed
      ensures name == old(name) && pickedImage == old(pickedImage)
    {
      if !CanSave(name) {
        return;
      }
      var card := NewCardFrom(newId, name, pickedImage, voice.RecordedAudio(), now);
      section := section.(cards := section.cards + [card]);
      dismissed := true;
    }
  }

  /** The working copies `EditCardView.init` derives from the card and `save()` writes back. */
  datatype EditState = EditState(name: string, pickedImage: Option<Image>, hasExistingImage: bool)

  /** `init`: the name as stored; the image only when the stored data decodes (`decoded`). */
  function OpenEdit(card: CardItem, decoded: Option<Image>): (s: EditState)
    ensures s.name == card.name
    ensures s.hasExistingImage <==> card.imageData.Some? && decoded.Some?
    ensures s.hasExistingImage ==> s.pickedImage == decoded
    ensures !s.hasExistingImage ==> s.pickedImage.None?
  {
    if card.imageData.Some? && decoded.Some? then EditState(card.name, decoded, true)
    else EditState(card.name, None, false)
  }

  /** The image data `save()` leaves: the picked image's JPEG; nothing once removed; else as stored. */
  function SavedImage(stored: Option<Bytes>, s: EditState): (r: Option<Bytes>)
  {
    if s.pickedImage.Some? then s.pickedImage.value.jpeg
    else if !s.hasExistingImage then None
    else stored
  }

  /** The card after `save()`: trimmed name, image by `SavedImage`, audio from the current file or none. */
  function SaveEdit(card: CardItem, s: EditState, recorded: Option<Bytes>): (r: CardItem)
    ensures r.id == card.id && r.createdAt == card.createdAt && r.isFavorite == card.isFavorite
    ensures r.name == Trim(s.name)
    ensures r.audioData == recorded
    ensures r.imageData == SavedImage(card.imageData, s)
  {
    card.(name := Trim(s.name), imageData := SavedImage(card.imageData, s), audioData := recorded)
  }

  /** After "Remove Image" (and no new pick) the saved card has no image, whatever it had. */
  lemma RemovedImageIsCleared(card: CardItem, name: string, recorded: Option<Bytes>)
    ensures SaveEdit(card, EditState(name, None, false), recorded).imageData.None?
  {
  }

  /** Leaving the image alone keeps the stored bytes only when nothing is picked but the image is still marked existing. */
  lemma SavedImageKeepsStoredIff(stored: Option<Bytes>, s: EditState)
    requires s.pickedImage.None?
    ensures SavedImage(stored, s) == stored <==> s.hasExistingImage || stored.None?
  {
  }

  /**
    * Opening a card and saving it untouched gives the card back when its name is already
    * trimmed, its picture re-encodes to the stored bytes and its recording is readable again.
    */
  lemma UntouchedEditKeepsCard(card: CardItem, decoded: Option<Image>)
    requires IsTrimmed(card.name)
    requires card.imageData.Some? ==> decoded.Some? && decoded.value.jpeg == card.imageData
    ensures SaveEdit(card, OpenEdit(card, decoded), card.audioData) == card
  {
    TrimClean(card.name);
  }

  /** Stored image data that does not decode is dropped by an untouched save. */
  lemma UndecodableImageIsDropped(card: CardItem, recorded: Option<Bytes>)
    requires card.imageData.Some?
    ensures SaveEdit(card, OpenEdit(card, None), recorded).imageData.None?
  {
  }

  /** `EditCardView`. */
  class EditCardView {
    /** The card being edited (`@Bindable`); `save()` writes its fields. */
    var card: CardItem
    var name: string
    var pickedImage: Option<Image>
    var hasExistingImage: bool
    const voice: VoiceControls
    var dismissed: bool

    predicate Valid()
      reads this, voice, voice.audioService
    {
      voice.Valid()
    }

    /**
      * `init(card:sectionTintHex:)`. `decoded` is what `UIImage(data:)` makes of the stored
      * picture; a stored recording is written to `<uuid>.m4a` (`writeOk`: the write succeeds)
      * and loaded, so it is readable back exactly when the write succeeded.
      */
    constructor (card: CardItem, decoded: Option<Image>, tempFiles: map<Url, Bytes>, uuid: nat, writeOk: bool)
      ensures Valid() && fresh(voice) && fresh(voice.audioService)
      ensures this.card == card && !dismissed
      ensures EditState(name, pickedImage, hasExistingImage) == OpenEdit(card, decoded)
      ensures voice.hasRecordedAudio <==> card.audioData.Some?
      ensures !voice.isPlaying && !voice.isRecording
      ensures card.audioData.None? ==> voice.RecordedAudio().None?
      ensures card.audioData.Some? && writeOk ==> voice.RecordedAudio() == card.audioData
      ensures card.audioData.Some? && !writeOk && Url(uuid) !in tempFiles ==> voice.RecordedAudio().None?
    {
      this.card := card;
      var s := OpenEdit(card, decoded);
      name := s.name;
      pickedImage := s.pickedImage;
      hasExistingImage := s.hasExistingImage;
      dismissed := false;
      var v := new VoiceControls(tempFiles);
      if card.audioData.Some? {
        v.LoadCardAudio(card.audioData.value, uuid, writeOk);
      }
      voice := v;
    }

    /** "Remove Image". */
    method RemoveImage()
      modifies this
      ensures pickedImage.None? && !hasExistingImage
      ensures card == old(card) && name == old(name) && dismissed == old(dismissed)
    {
      pickedImage := None;
      hasExistingImage := false;
    }

    /** A photo loaded from the library: when it decodes it becomes the picked, existing image. */
    method PhotoLoaded(image: Option<Image>)
      modifies this
      ensures image.Some? ==> pickedImage == image && hasExistingImage
      ensures image.None? ==> pickedImage == old(pickedImage) && hasExistingImage == old(hasExistingImage)
      ensures card == old(card) && name == old(name) && dismissed == old(dismissed)
    {
      if image.Some? {
        pickedImage := image;
        hasExistingImage := true;
      }
    }

    /** A photo taken with the camera replaces the picked image. */
    method CameraPicked(image: Image)
      modifies this
      ensures pickedImage == Some(image) && hasExistingImage == old(hasExistingImage)
      ensures card == old(card) && name == old(name) && dismissed == old(dismissed)
    {
      pickedImage := Some(image);
    }

    /** "Save" (disabled unless `CanSave(name)`): writes the edits back into the card and dismisses. */
    method Save()
      requires Valid()
      modifies this
      ensures Valid()
      ensures !CanSave(name) ==> card == old(card) && dismissed == old(dismissed)
      ensures CanSave(name) ==>
        card == SaveEdit(old(card), EditState(name, pickedImage, hasExistingImage), voice.RecordedAudio()) && dismissed
      ensures name == old(name) && pickedImage == old(pickedImage) && hasExistingImage == old(hasExistingImage)
    {
      if !CanSave(name) {
        return;
      }
      card := SaveEdit(card, EditState(name, pickedImage, hasExistingImage), voice.RecordedAudio());
      dismissed := true;
    }
  }
}
