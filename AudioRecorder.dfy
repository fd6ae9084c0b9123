/**
  * `AudioRecorderService`: the recorder/player bookkeeping every screen uses.
  * AVFoundation is a port: whether the audio session activates, whether a
  * recorder or player can be created and whether a temporary file can be
  * written arrive as parameters; the temporary directory is the `files` map.
  */
module AudioRecorder {
  import opened Common

  /** A file in the temporary directory, named `<uuid>.m4a`. */
  datatype Url = Url(uuid: nat)

  /** The closures the screens hand to `startPlayback(completion:)`, by what they do. */
  datatype Completion =
    | AdvanceQueue    // CombinedSentenceView: `currentIndex += 1; playCurrentIndex()`
    | ClearIsPlaying  // AddCardView / EditCardView: `isPlaying = false`
    | Ignore          // UCSView: `{ }`

  /**
    * What the port does when a screen loads a clip and starts it: `tempName` names the temporary
    * file, `written` says whether writing it succeeded, `sessionOk` and `playerOk`
    * whether the session and `AVAudioPlayer(contentsOf:)` succeed.
    */
  datatype Attempt = Attempt(tempName: nat, written: bool, sessionOk: bool, playerOk: bool)

  /** The current file after `loadExistingRecording(data:)` (unchanged when the write fails). */
  function UrlAfterLoad(url: Option<Url>, a: Attempt): Option<Url> {
    if a.written then Some(Url(a.tempName)) else url
  }

  /** The temporary directory after `loadExistingRecording(data:)`. */
  function FilesAfterLoad(files: map<Url, Bytes>, a: Attempt, clip: Bytes): map<Url, Bytes> {
    if a.written then files[Url(a.tempName) := clip] else files
  }

  /** `startPlayback` throws: there is a current file and the session, the player or the file fails. */
  predicate StartThrows(url: Option<Url>, files: map<Url, Bytes>, a: Attempt) {
    url.Some? && AudioRecorderService.StartFails(url.value, files, a.sessionOk, a.playerOk)
  }

  class AudioRecorderService {
    /** `recorder != nil` (and recording). */
    var recording: bool
    /** `player`: the file the current player was opened on, `None` for `nil`. */
    var player: Option<Url>
    var currentFileURL: Option<Url>
    var playbackCompletion: Option<Completion>
    /** The temporary directory: which files exist and what they hold. */
    var files: map<Url, Bytes>

    /** A completion is only ever stored together with the player it belongs to. */
    predicate Valid()
      reads this
    {
      playbackCompletion.Some? ==> player.Some?
    }

    constructor (tempFiles: map<Url, Bytes>)
      ensures Valid()
      ensures !recording && player.None? && currentFileURL.None? && playbackCompletion.None?
      ensures files == tempFiles
    {
      recording := false;
      player := None;
      currentFileURL := None;
      playbackCompletion := None;
      files := tempFiles;
    }

    /**
      * `startRecording()`. `sessionOk`: the session accepts `.playAndRecord` and activates;
      * `uuid` names the new file; `recorderOk`: `AVAudioRecorder(url:settings:)` succeeds,
      * after which the recorder writes `heard` to the file.
      */
    method StartRecording(sessionOk: bool, uuid: nat, recorderOk: bool, heard: Bytes) returns (threw: bool)
      requires Valid()
      modifies this
      ensures Valid()
      ensures threw <==> !(sessionOk && recorderOk)
      ensures player == old(player) && playbackCompletion == old(playbackCompletion)
      ensures !sessionOk ==> currentFileURL == old(currentFileURL) && recording == old(recording) && files == old(files)
      ensures sessionOk ==> currentFileURL == Some(Url(uuid))
      ensures sessionOk && !recorderOk ==> recording == old(recording) && files == old(files)
      ensures sessionOk && recorderOk ==> recording && files == old(files)[Url(uuid) := heard]
    {
      if !sessionOk {
        return true;
      }
      var url := Url(uuid);
      currentFileURL := Some(url);
      if !recorderOk {
        return true;
      }
      recording := true;
      files := files[url := heard];
      return false;
    }

    /** `stopRecording()`. */
    method StopRecording()
      requires Valid()
      modifies this
      ensures Valid()
      ensures !recording
      ensures player == old(player) && currentFileURL == old(currentFileURL)
      ensures playbackCompletion == old(playbackCompletion) && files == old(files)
    {
      recording := false;
    }

    /** Whether `startPlayback` throws once it has a file: the session or the player fails, or the file is missing. */
    static predicate StartFails(url: Url, files: map<Url, Bytes>, sessionOk: bool, playerOk: bool) {
      !(sessionOk && playerOk && url in files)
    }

    /**
      * `startPlayback(completion:)`. With no current file it returns without throwing and
      * changes nothing. A throw leaves the previous player and completion in place.
      */
    method StartPlayback(completion: Completion, sessionOk: bool, playerOk: bool) returns (threw: bool)
      requires Valid()
      modifies this
      ensures Valid()
      ensures recording == old(recording) && currentFileURL == old(currentFileURL) && files == old(files)
      ensures currentFileURL.None? ==> !threw && player == old(player) && playbackCompletion == old(playbackCompletion)
      ensures currentFileURL.Some? ==> (threw <==> StartFails(currentFileURL.value, files, sessionOk, playerOk))
      ensures threw ==> player == old(player) && playbackCompletion == old(playbackCompletion)
      ensures currentFileURL.Some? && !threw ==> player == currentFileURL && playbackCompletion == Some(completion)
    {
      if currentFileURL.None? {
        return false;
      }
      var url := currentFileURL.value;
      if !sessionOk {
        return true;
      }
      if !playerOk || url !in files {
        return true;
      }
      player := Some(url);
      playbackCompletion := Some(completion);
      return false;
    }

    /** `stopPlayback()`: drops the player and the pending completion with it. */
    method StopPlayback()
      requires Valid()
      modifies this
      ensures Valid()
      ensures player.None? && playbackCompletion.None?
      ensures recording == old(recording) && currentFileURL == old(currentFileURL) && files == old(files)
    {
      player := None;
      playbackCompletion := None;
    }

    /** `deleteRecording()`: stops everything, removes the current file, forgets it. */
    method DeleteRecording()
      requires Valid()
      modifies this
      ensures Valid()
      ensures !recording && player.None? && playbackCompletion.None? && currentFileURL.None?
      ensures files == if old(currentFileURL).Some? then old(files) - {old(currentFileURL).value} else old(files)
    {
      StopRecording();
      StopPlayback();
      if currentFileURL.Some? {
        files := files - {currentFileURL.value};
      }
      currentFileURL := None;
    }

    /** `loadExistingRecording(from:)`: stops everything and points at `url`, which it does not touch. */
    method LoadExistingRecordingFrom(url: Url)
      requires Valid()
      modifies this
      ensures Valid()
      ensures !recording && player.None? && playbackCompletion.None?
      ensures currentFileURL == Some(url) && files == old(files)
    {
      StopRecording();
      StopPlayback();
      currentFileURL := Some(url);
    }

    /**
      * `loadExistingRecording(data:)`: writes `data` to the fresh file `<uuid>.m4a` and loads it.
      * When the write fails (`writeOk` false) nothing changes at all.
      */
    method LoadExistingRecordingData(data: Bytes, uuid: nat, writeOk: bool)
      requires Valid()
      modifies this
      ensures Valid()
      ensures !writeOk ==> recording == old(recording) && player == old(player) && playbackCompletion == old(playbackCompletion)
                           && currentFileURL == old(currentFileURL) && files == old(files)
      ensures writeOk ==> !recording && player.None? && playbackCompletion.None?
                          && currentFileURL == Some(Url(uuid)) && files == old(files)[Url(uuid) := data]
    {
      var url := Url(uuid);
      if writeOk {
        files := files[url := data];
        LoadExistingRecordingFrom(url);
      }
    }

    /**
      * `audioPlayerDidFinishPlaying`: takes the pending completion and clears it before
      * handing it back to be run, so a stored completion fires at most once.
      */
    method AudioPlayerDidFinishPlaying() returns (fired: Option<Completion>)
      requires Valid()
      modifies this
      ensures Valid()
      ensures fired == old(playbackCompletion) && playbackCompletion.None?
      ensures old(playbackCompletion).None? ==> unchanged(this)
      ensures recording == old(recording) && player == old(player)
      ensures currentFileURL == old(currentFileURL) && files == old(files)
    {
      fired := playbackCompletion;
      playbackCompletion := None;
    }
  }
}
