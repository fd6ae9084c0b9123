/**
  * `CombinedSentenceView`: the sheet that shows the chips as one sentence and
  * speaks it by playing, in word order, the recording of the newest card named
  * like each word.
  */
module CombinedSentence {
  import opened Common
  import opened Text
  import opened Models
  import opened Lists
  import opened AudioRecorder

  // ---------------------------------------------------------------------------
  // The displayed sentence
  // ---------------------------------------------------------------------------

  predicate IsTerminal(c: char) {
    c == '.' || c == '!' || c == '?'
  }

  /** The words joined with single spaces, then trimmed. */
  function RawText(words: seq<string>): string {
    Trim(JoinWithSpaces(words))
  }

  /** `sentence`: the raw text with its first character upper-cased and a full stop unless it already ends in `.`, `!` or `?`. */
  function Sentence(words: seq<string>): (r: string)
    ensures r == [] <==> AllWhitespace(JoinWithSpaces(words))
    ensures r != [] ==> r[0] == ToUpper(RawText(words)[0]) && IsTerminal(r[|r| - 1])
    ensures r != [] ==> |RawText(words)| <= |r| && r[1..|RawText(words)|] == RawText(words)[1..]
    ensures r != [] ==>
      (|r| == |RawText(words)| + 1 && r[|r| - 1] == '.' <==> !IsTerminal(RawText(words)[|RawText(words)| - 1]))
    ensures r != [] ==> |r| == |RawText(words)| || |r| == |RawText(words)| + 1
    ensures r != [] && IsTerminal(RawText(words)[|RawText(words)| - 1]) ==> |r| == |RawText(words)|
  {
    var raw := RawText(words);
    if raw == [] then []
    else
      var capped := [ToUpper(raw[0])] + raw[1..];
      ToUpperFacts(raw[0]);
      if IsTerminal(capped[|capped| - 1]) then capped else capped + "."
  }

  /** Feeding the sentence back in as the only word gives the same sentence. */
  lemma SentenceIdempotent(words: seq<string>)
    ensures Sentence([Sentence(words)]) == Sentence(words)
  {
    var s := Sentence(words);
    assert JoinWithSpaces([s]) == s;
    if s != [] {
      var raw := RawText(words);
      ToUpperFacts(raw[0]);
      TrimClean(s);
      assert RawText([s]) == s;
      assert [ToUpper(s[0])] + s[1..] == s;
    }
  }

  // ---------------------------------------------------------------------------
  // Resolving words to clips
  // ---------------------------------------------------------------------------

  /** A card answers to `word` when its trimmed name equals it, ignoring case. */
  predicate NameMatches(card: CardItem, word: string) {
    EqualsIgnoringCase(Trim(card.name), word)
  }

  /**
    * The first element of the matching cards sorted by `createdAt`, newest first:
    * a match with the greatest creation time, the earliest such in `cards` on a tie.
    */
  function NewestMatch(cards: seq<CardItem>, word: string): (r: Option<CardItem>)
    ensures r.None? <==> forall c :: c in cards ==> !NameMatches(c, word)
    ensures r.Some? ==> r.value in cards && NameMatches(r.value, word)
    ensures r.Some? ==> forall c :: c in cards && NameMatches(c, word) ==> c.createdAt <= r.value.createdAt
  {
    if cards == [] then None
    else
      var rest := NewestMatch(cards[1..], word);
      if !NameMatches(cards[0], word) then rest
      else if rest.Some? && rest.value.createdAt > cards[0].createdAt then rest
      else Some(cards[0])
  }

  /** `c` is a card answering to `word` that no other such card is newer than. */
  predicate IsNewestMatch(cards: seq<CardItem>, word: string, c: CardItem) {
    && c in cards && NameMatches(c, word)
    && forall d :: d in cards && NameMatches(d, word) ==> d.createdAt <= c.createdAt
  }

  /**
    * The clip one word contributes: none for a blank word, else the newest match's audio,
    * if it has any. An older match's audio never stands in for a newest match without audio.
    */
  function ResolveWord(cards: seq<CardItem>, raw: string): (r: Option<Bytes>)
    ensures AllWhitespace(raw) ==> r.None?
    ensures !AllWhitespace(raw) ==>
      r == match NewestMatch(cards, Trim(raw)) case None => None case Some(c) => c.audioData
    ensures r.Some? ==> exists c :: IsNewestMatch(cards, Trim(raw), c) && c.audioData == r
    ensures !AllWhitespace(raw) && (forall c :: c in cards ==> !NameMatches(c, Trim(raw))) ==> r.None?
    ensures !AllWhitespace(raw) ==> forall c ::
      (IsNewestMatch(cards, Trim(raw), c) && forall d :: d in cards && NameMatches(d, Trim(raw)) && d != c ==> d.createdAt < c.createdAt)
      ==> r == c.audioData
  {
    var word := Trim(raw);
    if word == [] then None
    else match NewestMatch(cards, word)
      case None => None
      case Some(card) => card.audioData
  }

  /** The queue `prepareQueueAndPlay` builds: one clip per resolved word, in word order. */
  function BuildQueue(words: seq<string>, cards: seq<CardItem>): (q: seq<Bytes>)
    ensures |q| <= |words|
  {
    CompactMap(words, (w: string) => ResolveWord(cards, w))
  }

  /** The queue for a non-empty word list ends with the last word's clip, if any. */
  lemma BuildQueueLast(words: seq<string>, cards: seq<CardItem>)
    requires words != []
    ensures BuildQueue(words, cards) == BuildQueue(words[..|words| - 1], cards) + OptionToSeq(ResolveWord(cards, words[|words| - 1]))
  {
  }

  /** One more word extends the queue by that word's clip, if any. */
  lemma BuildQueueStep(words: seq<string>, k: nat, cards: seq<CardItem>)
    requires k < |words|
    ensures BuildQueue(words[..k + 1], cards) == BuildQueue(words[..k], cards) + OptionToSeq(ResolveWord(cards, words[k]))
  {
    assert words[..k + 1][..k] == words[..k];
    BuildQueueLast(words[..k + 1], cards);
  }

  /** Queue building distributes over concatenation of the word list. */
  lemma BuildQueueAppend(a: seq<string>, b: seq<string>, cards: seq<CardItem>)
    ensures BuildQueue(a + b, cards) == BuildQueue(a, cards) + BuildQueue(b, cards)
  {
    CompactMapAppend(a, b, (w: string) => ResolveWord(cards, w));
  }

  /** A blank word contributes nothing: removing it leaves the queue as it was. */
  lemma BuildQueueSkipsBlank(words: seq<string>, i: nat, cards: seq<CardItem>)
    requires i < |words| && AllWhitespace(words[i])
    ensures BuildQueue(words, cards) == BuildQueue(words[..i] + words[i + 1..], cards)
  {
    CompactMapSkip(words, i, (w: string) => ResolveWord(cards, w));
  }

  /** A single word contributes exactly its resolved clip, if any. */
  lemma BuildQueueSingle(w: string, cards: seq<CardItem>)
    ensures BuildQueue([w], cards) == OptionToSeq(ResolveWord(cards, w))
  {
    assert [w][..0] == [];
  }

  /** Every clip in the queue is the recording of some card. */
  lemma {:induction false} BuildQueueFromCards(words: seq<string>, cards: seq<CardItem>)
    ensures forall x :: x in BuildQueue(words, cards) ==> exists c :: c in cards && c.audioData == Some(x)
  {
    if words != [] {
      BuildQueueFromCards(words[..|words| - 1], cards);
      BuildQueueLast(words, cards);
    }
  }

  /** Names are matched after trimming and without regard to case. */
  lemma MatchIgnoresCaseAndSpaces()
    ensures NameMatches(CardItem(0, " Hello ", None, Some([1]), 0, false), "hello")
  {
    var name := " Hello ";
    assert LeadingWhitespace(name[1..]) == 0;
    assert LeadingWhitespace(name) == 1;
    assert name[1..] == "Hello ";
    assert TrailingWhitespace("Hello "[..5]) == 0;
    assert Trim(name) == "Hello";
  }

  /** The newest match wins even without audio: the word is skipped although an older card has a recording. */
  lemma NewestMatchWithoutAudioSkipsWord()
    ensures BuildQueue(["hi"], [CardItem(1, "hi", None, Some([7]), 1, false), CardItem(2, "hi", None, None, 2, false)]) == []
  {
    var older := CardItem(1, "hi", None, Some([7]), 1, false);
    var newer := CardItem(2, "hi", None, None, 2, false);
    var cards := [older, newer];
    assert IsTrimmed("hi") by {
      assert !IsWhitespace('h') && !IsWhitespace('i');
    }
    TrimClean("hi");
    assert NameMatches(newer, "hi");
    assert NewestMatch(cards, "hi") == Some(newer);
    assert ["hi"][..0] == [];
  }

  // ---------------------------------------------------------------------------
  // Playing the queue
  // ---------------------------------------------------------------------------

  /** Where a chain of `playCurrentIndex` calls comes to rest, and the service's file state there. */
  datatype Landing = Landing(index: nat, url: Option<Url>, files: map<Url, Bytes>)

  /**
    * From clip `i`, load and start clips, skipping each one whose start throws, until one
    * starts (or the start returns silently for want of a file) or the queue is exhausted.
    */
  function SkipFailures(queue: seq<Bytes>, i: nat, url: Option<Url>, files: map<Url, Bytes>, attempts: nat -> Attempt): (r: Landing)
    ensures i <= r.index
    ensures i <= |queue| ==> r.index <= |queue|
    ensures i >= |queue| ==> r == Landing(i, url, files)
    ensures url.Some? ==> r.url.Some?
    decreases |queue| - i
  {
    if i >= |queue| then Landing(i, url, files)
    else
      var a := attempts(i);
      var url' := UrlAfterLoad(url, a);
      var files' := FilesAfterLoad(files, a, queue[i]);
      if StartThrows(url', files', a) then SkipFailures(queue, i + 1, url', files', attempts)
      else Landing(i, url', files')
  }

  /** Landing on a clip whose temporary file was written plays exactly that clip's audio. */
  lemma {:induction false} LandingPlaysItsClip(queue: seq<Bytes>, i: nat, url: Option<Url>, files: map<Url, Bytes>, attempts: nat -> Attempt)
    requires SkipFailures(queue, i, url, files, attempts).index < |queue|
    requires attempts(SkipFailures(queue, i, url, files, attempts).index).written
    ensures var r := SkipFailures(queue, i, url, files, attempts);
      r.url == Some(Url(attempts(r.index).tempName)) && r.url.value in r.files && r.files[r.url.value] == queue[r.index]
    decreases |queue| - i
  {
    var a := attempts(i);
    var url' := UrlAfterLoad(url, a);
    var files' := FilesAfterLoad(files, a, queue[i]);
    if StartThrows(url', files', a) {
      LandingPlaysItsClip(queue, i + 1, url', files', attempts);
    }
  }

  /**
    * When writing clip `i` fails but an earlier file is still current, the player reopens
    * that file: the previous clip is heard again in place of clip `i`.
    */
  lemma FailedWriteReplaysCurrentFile(queue: seq<Bytes>, i: nat, url: Url, files: map<Url, Bytes>, attempts: nat -> Attempt)
    requires i < |queue| && url in files
    requires !attempts(i).written && attempts(i).sessionOk && attempts(i).playerOk
    ensures SkipFailures(queue, i, Some(url), files, attempts) == Landing(i, Some(url), files)
  {
  }

  /** The clips a whole run starts, in order, and whether it stalls with the queue still marked as playing. */
  datatype RunResult = RunResult(started: seq<nat>, stalled: bool)

  /**
    * The run `prepareQueueAndPlay` sets off from clip `i`: each landing starts a clip whose
    * finish advances to the next; a landing without a file stalls; running off the end stops.
    */
  function Run(queue: seq<Bytes>, i: nat, url: Option<Url>, files: map<Url, Bytes>, attempts: nat -> Attempt): RunResult
    decreases |queue| - i
  {
    var r := SkipFailures(queue, i, url, files, attempts);
    if r.index >= |queue| then RunResult([], false)
    else if r.url.None? then RunResult([], true)
    else
      var rest := Run(queue, r.index + 1, r.url, r.files, attempts);
      RunResult([r.index] + rest.started, rest.stalled)
  }

  /** `s` is strictly increasing with every element in `lo..hi-1`. */
  predicate IncreasingWithin(s: seq<nat>, lo: nat, hi: nat) {
    (forall k :: 0 <= k < |s| ==> lo <= s[k] < hi) && (forall k :: 0 < k < |s| ==> s[k - 1] < s[k])
  }

  /** A run starts clips in strictly increasing order, each within the queue and at or after `i`. */
  lemma {:induction false} RunIncreasing(queue: seq<Bytes>, i: nat, url: Option<Url>, files: map<Url, Bytes>, attempts: nat -> Attempt)
    ensures IncreasingWithin(Run(queue, i, url, files, attempts).started, i, |queue|)
    decreases |queue| - i
  {
    var r := SkipFailures(queue, i, url, files, attempts);
    if r.index < |queue| && r.url.Some? {
      RunIncreasing(queue, r.index + 1, r.url, r.files, attempts);
      var rest := Run(queue, r.index + 1, r.url, r.files, attempts).started;
      var s := Run(queue, i, url, files, attempts).started;
      assert s == [r.index] + rest;
      forall k | 0 < k < |s| ensures s[k - 1] < s[k] {
        assert s[k] == rest[k - 1];
        if k > 1 {
          assert s[k - 1] == rest[k - 2];
        }
      }
    }
  }

  /** Once a file has been loaded the run can never stall. */
  lemma {:induction false} RunNeverStallsWithFile(queue: seq<Bytes>, i: nat, url: Option<Url>, files: map<Url, Bytes>, attempts: nat -> Attempt)
    requires url.Some?
    ensures !Run(queue, i, url, files, attempts).stalled
    decreases |queue| - i
  {
    var r := SkipFailures(queue, i, url, files, attempts);
    if r.index < |queue| {
      RunNeverStallsWithFile(queue, r.index + 1, r.url, r.files, attempts);
    }
  }

  /** With no file yet, a failed first write makes `startPlayback` return silently: the run stalls before any clip. */
  lemma RunStallsWhenFirstWriteFails(queue: seq<Bytes>, i: nat, files: map<Url, Bytes>, attempts: nat -> Attempt)
    requires i < |queue| && !attempts(i).written
    ensures Run(queue, i, None, files, attempts) == RunResult([], true)
  {
  }

  function Range(lo: nat, hi: nat): (s: seq<nat>)
    ensures |s| == if lo <= hi then hi - lo else 0
    ensures forall k :: 0 <= k < |s| ==> s[k] == lo + k
    decreases hi - lo
  {
    if lo >= hi then [] else [lo] + Range(lo + 1, hi)
  }

  /** When every step succeeds, each clip from `i` on is started once, in order, and the run ends cleanly. */
  lemma {:induction false} RunAllSucceed(queue: seq<Bytes>, i: nat, url: Option<Url>, files: map<Url, Bytes>, attempts: nat -> Attempt)
    requires i <= |queue|
    requires forall k :: i <= k < |queue| ==> attempts(k).written && attempts(k).sessionOk && attempts(k).playerOk
    ensures Run(queue, i, url, files, attempts) == RunResult(Range(i, |queue|), false)
    decreases |queue| - i
  {
    if i < |queue| {
      var a := attempts(i);
      var files' := FilesAfterLoad(files, a, queue[i]);
      assert !StartThrows(UrlAfterLoad(url, a), files', a);
      RunAllSucceed(queue, i + 1, Some(Url(a.tempName)), files', attempts);
    }
  }

  class CombinedSentenceView {
    const words: seq<string>
    /** The cards the model context can fetch, in fetch order. */
    const store: seq<CardItem>
    var isPlayingQueue: bool
    var currentIndex: nat
    var audioQueue: seq<Bytes>
    const audioService: AudioRecorderService

    /** A pending completion is always this view's `AdvanceQueue`, and only while the queue plays a real clip. */
    predicate Valid()
      reads this, audioService
    {
      && audioService.Valid()
      && !audioService.recording
      && (isPlayingQueue ==> currentIndex < |audioQueue|)
      && (audioService.playbackCompletion.Some? ==> isPlayingQueue && audioService.playbackCompletion == Some(AdvanceQueue))
    }

    /** The view and its service are where the chain of calls described by `r` came to rest. */
    predicate Landed(r: Landing)
      reads this, audioService
    {
      && currentIndex == r.index
      && audioService.currentFileURL == r.url
      && audioService.files == r.files
      && (isPlayingQueue <==> r.index < |audioQueue|)
      && audioService.playbackCompletion == (if r.index < |audioQueue| && r.url.Some? then Some(AdvanceQueue) else None)
      && (r.index < |audioQueue| ==> audioService.player == r.url)
    }

    constructor (words: seq<string>, store: seq<CardItem>, tempFiles: map<Url, Bytes>)
      ensures Valid()
      ensures this.words == words && this.store == store
      ensures !isPlayingQueue && currentIndex == 0 && audioQueue == []
      ensures fresh(audioService) && audioService.currentFileURL.None? && audioService.files == tempFiles
    {
      this.words := words;
      this.store := store;
      isPlayingQueue := false;
      currentIndex := 0;
      audioQueue := [];
      audioService := new AudioRecorderService(tempFiles);
    }

    /**
      * `playCurrentIndex()`: when stopped or past the end, marks the queue as not playing and
      * does nothing else; otherwise stops the previous clip, loads the current one and starts
      * it, moving on to the next clip whenever the start throws.
      */
    method PlayCurrentIndex(attempts: nat -> Attempt)
      requires audioService.Valid() && !audioService.recording && audioService.playbackCompletion.None?
      modifies this, audioService
      ensures Valid()
      ensures audioQueue == old(audioQueue)
      ensures !old(isPlayingQueue) || old(currentIndex) >= |audioQueue| ==>
        !isPlayingQueue && currentIndex == old(currentIndex) && unchanged(audioService)
      ensures old(isPlayingQueue) && old(currentIndex) < |audioQueue| ==>
        Landed(SkipFailures(audioQueue, old(currentIndex), old(audioService.currentFileURL), old(audioService.files), attempts))
      decreases |audioQueue| - currentIndex
    {
      if !isPlayingQueue || currentIndex >= |audioQueue| {
        isPlayingQueue := false;
        return;
      }
      var clip := audioQueue[currentIndex];
      var a := attempts(currentIndex);
      audioService.StopPlayback();
      audioService.LoadExistingRecordingData(clip, a.tempName, a.written);
      var threw := audioService.StartPlayback(AdvanceQueue, a.sessionOk, a.playerOk);
      if threw {
        currentIndex := currentIndex + 1;
        PlayCurrentIndex(attempts);
      }
    }

    /**
      * The loop of `prepareQueueAndPlay()` that walks the words: each non-blank trimmed word
      * adds the audio of its newest matching card, when that card has audio.
      */
    static method CollectClips(words: seq<string>, store: seq<CardItem>) returns (queue: seq<Bytes>)
      ensures queue == BuildQueue(words, store)
    {
      queue := [];
      for k := 0 to |words|
        invariant queue == BuildQueue(words[..k], store)
      {
        BuildQueueStep(words, k, store);
        var trimmed := Trim(words[k]);
        if trimmed != [] {
          var candidate := NewestMatch(store, trimmed);
          if candidate.Some? && candidate.value.audioData.Some? {
            queue := queue + [candidate.value.audioData.value];
          }
        }
      }
      assert words[..|words|] == words;
    }

    /**
      * `prepareQueueAndPlay()`: stops any clip, rebuilds the queue from the words and, when it
      * is not empty, plays it from the first clip.
      */
    method PrepareQueueAndPlay(attempts: nat -> Attempt)
      requires Valid()
      modifies this, audioService
      ensures Valid()
      ensures audioQueue == BuildQueue(words, store)
      ensures audioQueue == [] ==>
        !isPlayingQueue && currentIndex == 0 && audioService.player.None? && audioService.playbackCompletion.None?
        && audioService.currentFileURL == old(audioService.currentFileURL) && audioService.files == old(audioService.files)
      ensures audioQueue != [] ==>
        Landed(SkipFailures(audioQueue, 0, old(audioService.currentFileURL), old(audioService.files), attempts))
    {
      audioService.StopPlayback();
      currentIndex := 0;
      var queue := CollectClips(words, store);
      audioQueue := queue;
      if audioQueue == [] {
        isPlayingQueue := false;
        return;
      }
      isPlayingQueue := true;
      PlayCurrentIndex(attempts);
    }

    /** `stopPlayback()`: the queue stops and rewinds, and the service drops its player and completion. */
    method StopPlayback()
      requires Valid()
      modifies this, audioService
      ensures Valid()
      ensures !isPlayingQueue && currentIndex == 0 && audioQueue == old(audioQueue)
      ensures audioService.player.None? && audioService.playbackCompletion.None?
      ensures audioService.currentFileURL == old(audioService.currentFileURL) && audioService.files == old(audioService.files)
    {
      isPlayingQueue := false;
      audioService.StopPlayback();
      currentIndex := 0;
    }

    /** `handleSpeakTapped()`: stops a playing queue, otherwise builds and plays it afresh. */
    method HandleSpeakTapped(attempts: nat -> Attempt)
      requires Valid()
      modifies this, audioService
      ensures Valid()
      ensures old(isPlayingQueue) ==>
        !isPlayingQueue && currentIndex == 0 && audioQueue == old(audioQueue) && audioService.playbackCompletion.None?
      ensures !old(isPlayingQueue) ==> audioQueue == BuildQueue(words, store)
      ensures !old(isPlayingQueue) && audioQueue == [] ==> !isPlayingQueue && currentIndex == 0
      ensures !old(isPlayingQueue) && audioQueue != [] ==>
        Landed(SkipFailures(audioQueue, 0, old(audioService.currentFileURL), old(audioService.files), attempts))
    {
      if isPlayingQueue {
        StopPlayback();
      } else {
        PrepareQueueAndPlay(attempts);
      }
    }

    /**
      * The player finished: the service hands back its pending completion, which (run on the
      * main queue, here at once) advances to the next clip. A finish with nothing pending,
      * as after a stop, changes nothing.
      */
    method OnClipFinished(attempts: nat -> Attempt)
      requires Valid()
      modifies this, audioService
      ensures Valid()
      ensures audioQueue == old(audioQueue)
      ensures old(audioService.playbackCompletion).None? ==> unchanged(this)
      ensures old(audioService.playbackCompletion).None? ==> unchanged(audioService)
      ensures old(audioService.playbackCompletion).Some? ==>
        var r := SkipFailures(audioQueue, old(currentIndex) + 1, old(audioService.currentFileURL), old(audioService.files), attempts);
        currentIndex == r.index && (isPlayingQueue <==> r.index < |audioQueue|)
        && audioService.currentFileURL == r.url && audioService.files == r.files
        && audioService.playbackCompletion == (if r.index < |audioQueue| && r.url.Some? then Some(AdvanceQueue) else None)
        && (r.index < |audioQueue| ==> audioService.player == r.url)
    {
      var fired := audioService.AudioPlayerDidFinishPlaying();
      if fired == Some(AdvanceQueue) {
        currentIndex := currentIndex + 1;
        PlayCurrentIndex(attempts);
      }
    }
  }
}
