/**
 * The production state of the page and its entry points: drafting a script, synthesizing the
 * narration, rendering one image, animating one image, rendering all images then the narration,
 * packaging the bundle, and editing the script.
 *
 * Every remote call (script, speech, image and video services, the fetch of a video, the archive
 * builder) is an input parameter that says how the call came out. Each entry point runs from its
 * start to its end in one step: the statuses it sets before an await are overwritten before it ends.
 */
module Production {
  import opened Types
  import opened JsText
  import opened AudioHelper
  import opened AppView
  import opened Bundle

  const TopicRequired: string := "Please enter a topic."
  const DefaultBgmPrompt: string := "Cinematic, ambient, upbeat background music matching the theme."
  const VoiceMissing: string := "Voice synthesis failed."
  const ZipFailedMessage: string := "Zipping failed."

  // ---------------------------------------------------------------------------------------------
  // Outcomes of the remote calls

  /** The script service: a parsed JSON script (bgmPrompts absent or present), or a thrown error. */
  datatype ScriptOutcome =
    | ScriptParsed(title: string, scenes: seq<Scene>, bgmPrompts: Option<seq<string>>)
    | ScriptFailed(message: string)

  /** The speech service: inline audio (the string atob decoded from it), a response without it, or a thrown error. */
  datatype SpeechOutcome =
    | SpeechAudio(binaryString: seq<CodeUnit>)
    | SpeechWithoutAudio
    | SpeechFailed(message: string)

  /** The image service: a part with inline data, a response without one, or a thrown error. */
  datatype ImageOutcome =
    | ImageInline(data: string)
    | ImageWithoutInline
    | ImageFailed(message: string)

  /** The video job once done: a fetched video (its object URL), no video URI, or a thrown error. */
  datatype VideoOutcome =
    | VideoFetched(objectUrl: string)
    | VideoWithoutUri
    | VideoFailed

  /** The archive builder, including the fetches of the video blobs: it produced the archive, or something threw. */
  datatype ZipOutcome = ZipGenerated | ZipFailed

  /** What a generated archive holds: the folder name, the entry names in order, and the narration bytes. */
  datatype Archive = Archive(folder: string, entries: seq<string>, narration: seq<byte>)

  // ---------------------------------------------------------------------------------------------
  // Pure pieces of the entry points

  /** `err.message || fallback`: the thrown message, or the fallback when it is empty. */
  function ErrorText(message: string, fallback: string): (r: string)
    ensures message != "" ==> r == message
    ensures message == "" ==> r == fallback
    ensures fallback != "" ==> r != ""
  {
    if message == "" then fallback else message
  }

  /** The scene-scoped message `Scene {index + 1}` followed by `what`. */
  function SceneError(index: nat, what: string): (r: string)
    ensures |r| > 6 + |what| && r[..6] == "Scene " && r[|r| - |what|..] == what
    ensures r[6..|r| - |what|] == DecimalString(index + 1)
  {
    "Scene " + DecimalString(index + 1) + what
  }

  /** A missing or empty list of background-music prompts is replaced by the one default prompt. */
  function BgmPromptsOrDefault(prompts: Option<seq<string>>): (r: seq<string>)
    ensures r != []
    ensures prompts.Some? && prompts.value != [] ==> r == prompts.value
    ensures prompts.None? || prompts.value == [] ==> r == [DefaultBgmPrompt]
  {
    if prompts.None? || prompts.value == [] then [DefaultBgmPrompt] else prompts.value
  }

  /** The narration request: the scene texts in order, joined by ". ". */
  function Narration(scenes: seq<Scene>): string {
    if scenes == [] then ""
    else if |scenes| == 1 then scenes[0].text
    else scenes[0].text + ". " + Narration(scenes[1..])
  }

  /** The sum of the lengths of the scene texts. */
  function TextLength(scenes: seq<Scene>): nat {
    if scenes == [] then 0 else |scenes[0].text| + TextLength(scenes[1..])
  }

  /** Appending a scene appends ". " and its text to the narration. */
  lemma {:induction false} NarrationAppend(scenes: seq<Scene>, s: Scene)
    requires scenes != []
    ensures Narration(scenes + [s]) == Narration(scenes) + ". " + s.text
  {
    if |scenes| > 1 {
      assert (scenes + [s])[1..] == scenes[1..] + [s];
      NarrationAppend(scenes[1..], s);
    } else {
      assert (scenes + [s])[1..] == [s];
    }
  }

  /** The narration holds every scene text and one two-character separator between neighbours. */
  lemma {:induction false} NarrationLength(scenes: seq<Scene>)
    ensures |Narration(scenes)| == TextLength(scenes) + (if scenes == [] then 0 else 2 * (|scenes| - 1))
  {
    if |scenes| > 1 {
      NarrationLength(scenes[1..]);
    } else if |scenes| == 1 {
      assert scenes[1..] == [];
    }
  }

  /** The error a speech outcome leaves, None when audio arrived. */
  function SpeechError(speech: SpeechOutcome): (r: Option<string>)
    ensures r == None <==> speech.SpeechAudio?
    ensures r.Some? ==> r.value != ""
  {
    match speech
    case SpeechAudio(_) => None
    case SpeechWithoutAudio => Some(VoiceMissing)
    case SpeechFailed(m) => Some(ErrorText(m, "Audio synthesis error."))
  }

  /** The bytes the narration file holds for a decoded binary string: 24 kHz, mono, 16-bit PCM in a WAVE file. */
  function NarrationWav(binaryString: seq<CodeUnit>): (w: seq<byte>)
    ensures |w| == 44 + |binaryString|
    ensures 36 + |binaryString| < TwoTo32 ==>
      ParseWav(w) == Some(WavInfo(36 + |binaryString|, 16, 1, 1, 24000, 48000, 2, 16, |binaryString|, DecodedBytes(binaryString)))
  {
    if 36 + |binaryString| < TwoTo32 then
      DefaultWav(DecodedBytes(binaryString));
      WavFile(DecodedBytes(binaryString), 24000, 1, 16)
    else
      WavFile(DecodedBytes(binaryString), 24000, 1, 16)
  }

  /** The image slots of a fresh script: one empty string per scene. */
  function EmptyImageSlots(n: nat): (r: seq<string>)
    ensures |r| == n && forall i :: 0 <= i < n ==> r[i] == ""
  {
    seq(n, _ => "")
  }

  /** The video slots of a fresh script: one empty slot per scene. */
  function EmptyVideoSlots(n: nat): (r: seq<Option<string>>)
    ensures |r| == n && forall i :: 0 <= i < n ==> r[i] == None
  {
    seq(n, _ => None)
  }

  /** A slot after one image call: the inline data if there was some, else unchanged. */
  function ImageSlotAfter(slot: string, response: ImageOutcome): string {
    if response.ImageInline? then response.data else slot
  }

  /** The index of the first image call that throws, or the number of calls when none does. */
  function FirstImageFailure(responses: seq<ImageOutcome>): (k: nat)
    ensures k <= |responses|
    ensures forall j :: 0 <= j < k ==> !responses[j].ImageFailed?
    ensures k < |responses| ==> responses[k].ImageFailed?
  {
    if responses == [] || responses[0].ImageFailed? then 0
    else 1 + FirstImageFailure(responses[1..])
  }

  /** The slots once the calls before `upto` have been applied, each to its own slot. */
  function BatchImages(slots: seq<string>, responses: seq<ImageOutcome>, upto: nat): (r: seq<string>)
    requires |responses| == |slots| && upto <= |slots|
    ensures |r| == |slots|
  {
    seq(|slots|, i => if 0 <= i < upto then ImageSlotAfter(slots[i], responses[i]) else if 0 <= i < |slots| then slots[i] else "")
  }

  /** Applying one more call writes only its own slot. */
  lemma BatchImagesStep(slots: seq<string>, responses: seq<ImageOutcome>, i: nat)
    requires |responses| == |slots| && i < |slots|
    ensures BatchImages(slots, responses, i + 1)
            == BatchImages(slots, responses, i)[i := ImageSlotAfter(slots[i], responses[i])]
  {
  }

  /**
   * A batch that throws at scene k keeps the slots before k as the calls left them and leaves the
   * slots from k on untouched; a call without inline data leaves its slot as it was.
   */
  lemma BatchFailureKeepsPrefix(slots: seq<string>, responses: seq<ImageOutcome>)
    requires |responses| == |slots|
    ensures var k := FirstImageFailure(responses);
            var r := BatchImages(slots, responses, k);
      && (forall i :: 0 <= i < k && responses[i].ImageInline? ==> r[i] == responses[i].data)
      && (forall i :: 0 <= i < k && responses[i].ImageWithoutInline? ==> r[i] == slots[i])
      && (forall i :: k <= i < |slots| ==> r[i] == slots[i])
  {
  }

  /** The image calls of a batch depend on nothing but their own slot: the batch equals single-slot writes in any order of scenes. */
  lemma BatchImagesSlotwise(slots: seq<string>, responses: seq<ImageOutcome>, i: nat)
    requires |responses| == |slots| && i < |slots|
    ensures BatchImages(slots, responses, |slots|)[i] == ImageSlotAfter(slots[i], responses[i])
    ensures BatchImages(slots, responses, |slots|)
            == BatchImages(slots[i := ImageSlotAfter(slots[i], responses[i])], responses, |slots|)
  {
  }

  // ---------------------------------------------------------------------------------------------
  // The project

  /** The page's production state. */
  class Project {
    var status: GenerationStatus
    var error: Option<string>
    var script: Option<ShortsScript>
    var images: seq<string>
    var videos: seq<Option<string>>
    var audioUrl: Option<string>
    var audioBlob: Option<seq<byte>>
    var zipBlob: Option<Archive>
    var imageGeneratingIndex: Option<nat>
    var videoGeneratingIndex: Option<nat>

    /** The slot lists have one slot per scene, and a script always has a background-music prompt. */
    ghost predicate Valid()
      reads this`script, this`images, this`videos
    {
      match script
      case None => images == [] && videos == []
      case Some(s) => |images| == |s.scenes| && |videos| == |s.scenes| && s.bgmPrompts != []
    }

    /** `isProcessing` for the current state. */
    function Processing(): bool
      reads this`status, this`imageGeneratingIndex, this`videoGeneratingIndex
    {
      IsProcessing(status, imageGeneratingIndex, videoGeneratingIndex)
    }

    /** The state of a freshly opened page. */
    constructor ()
      ensures Valid() && !Processing()
      ensures status == Idle && error == None && script == None && images == [] && videos == []
      ensures audioUrl == None && audioBlob == None && zipBlob == None
      ensures imageGeneratingIndex == None && videoGeneratingIndex == None
    {
      status, error, script := Idle, None, None;
      images, videos := [], [];
      audioUrl, audioBlob, zipBlob := None, None, None;
      imageGeneratingIndex, videoGeneratingIndex := None, None;
    }

    /**
     * `generateScriptDraft`. A blank topic (one that trims to nothing, by `TrimEmptyIffBlank`)
     * only sets the error. Otherwise the previous production is cleared (the narration file
     * excepted) and the script service's outcome decides: a parsed script with one empty image
     * slot and one empty video slot per scene, or the error status.
     */
    method GenerateScriptDraft(topic: string, response: ScriptOutcome)
      requires Valid()
      modifies this`status, this`error, this`script, this`images, this`videos, this`audioUrl, this`audioBlob, this`zipBlob
      ensures Valid()
      ensures audioBlob == old(audioBlob)
      ensures IsBlank(topic) ==>
        && error == Some(TopicRequired) && status == old(status) && script == old(script)
        && images == old(images) && videos == old(videos) && audioUrl == old(audioUrl) && zipBlob == old(zipBlob)
      ensures !IsBlank(topic) ==> audioUrl == None && zipBlob == None
      ensures !IsBlank(topic) && response.ScriptFailed? ==>
        && status == Error && error == Some(ErrorText(response.message, "Script generation failed."))
        && script == None && images == [] && videos == []
      ensures !IsBlank(topic) && response.ScriptParsed? ==>
        && status == ScriptReview && error == None
        && script == Some(ShortsScript(response.title, response.scenes, BgmPromptsOrDefault(response.bgmPrompts)))
        && images == EmptyImageSlots(|response.scenes|) && videos == EmptyVideoSlots(|response.scenes|)
    {
      var blank := Trim(topic) == "";
      assert blank <==> IsBlank(topic) by { TrimEmptyIffBlank(topic); }
      if blank {
        error := Some(TopicRequired);
      } else {
        DraftScript(response, false);
      }
    }

    /**
     * `generateScriptDraft` as evidently intended: the narration file is discarded together with
     * its object URL, so an archive can never pair a new script with an earlier narration.
     */
    method GenerateScriptDraftCorrected(topic: string, response: ScriptOutcome)
      requires Valid()
      modifies this`status, this`error, this`script, this`images, this`videos, this`audioUrl, this`audioBlob, this`zipBlob
      ensures Valid()
      ensures IsBlank(topic) ==>
        && error == Some(TopicRequired) && status == old(status) && script == old(script)
        && images == old(images) && videos == old(videos) && zipBlob == old(zipBlob)
        && audioUrl == old(audioUrl) && audioBlob == old(audioBlob)
      ensures !IsBlank(topic) ==> audioUrl == None && audioBlob == None && zipBlob == None
      ensures !IsBlank(topic) && response.ScriptFailed? ==>
        && status == Error && error == Some(ErrorText(response.message, "Script generation failed."))
        && script == None && images == [] && videos == []
      ensures !IsBlank(topic) && response.ScriptParsed? ==>
        && status == ScriptReview && error == None
        && script == Some(ShortsScript(response.title, response.scenes, BgmPromptsOrDefault(response.bgmPrompts)))
        && images == EmptyImageSlots(|response.scenes|) && videos == EmptyVideoSlots(|response.scenes|)
    {
      var blank := Trim(topic) == "";
      assert blank <==> IsBlank(topic) by { TrimEmptyIffBlank(topic); }
      if blank {
        error := Some(TopicRequired);
      } else {
        DraftScript(response, true);
      }
    }

    /** The part of `generateScriptDraft` past the topic check: clear the production, then apply the script service's outcome. */
    method DraftScript(response: ScriptOutcome, clearNarration: bool)
      modifies this`status, this`error, this`script, this`images, this`videos, this`audioUrl, this`audioBlob, this`zipBlob
      ensures Valid()
      ensures audioUrl == None && zipBlob == None
      ensures audioBlob == if clearNarration then None else old(audioBlob)
      ensures response.ScriptFailed? ==>
        && status == Error && error == Some(ErrorText(response.message, "Script generation failed."))
        && script == None && images == [] && videos == []
      ensures response.ScriptParsed? ==>
        && status == ScriptReview && error == None
        && script == Some(ShortsScript(response.title, response.scenes, BgmPromptsOrDefault(response.bgmPrompts)))
        && images == EmptyImageSlots(|response.scenes|) && videos == EmptyVideoSlots(|response.scenes|)
    {
      error, script, images, videos, audioUrl, zipBlob := None, None, [], [], None, None;
      if clearNarration {
        audioBlob := None;
      }
      status := ScriptGenerating;
      match response {
        case ScriptFailed(message) =>
          error := Some(ErrorText(message, "Script generation failed."));
          status := Error;
        case ScriptParsed(title, scenes, prompts) =>
          script := Some(ShortsScript(title, scenes, BgmPromptsOrDefault(prompts)));
          images := EmptyImageSlots(|scenes|);
          videos := EmptyVideoSlots(|scenes|);
          status := ScriptReview;
      }
    }

    /**
     * `generateAudio`: nothing without a script. Otherwise the scene texts joined by ". " are sent
     * to the speech service (`narration` is that text); inline audio is decoded, wrapped in a
     * 24 kHz mono 16-bit WAVE file and stored with its object URL, and the status returns to
     * script review; a response without audio or a thrown error sets the error status.
     */
    method GenerateAudio(speech: SpeechOutcome, objectUrl: string) returns (narration: Option<string>)
      modifies this`status, this`error, this`audioUrl, this`audioBlob
      ensures script.None? ==>
        && narration == None && status == old(status) && error == old(error)
        && audioUrl == old(audioUrl) && audioBlob == old(audioBlob)
      ensures script.Some? ==> narration == Some(Narration(script.value.scenes))
      ensures script.Some? && speech.SpeechAudio? ==>
        && status == ScriptReview && error == old(error)
        && audioBlob == Some(NarrationWav(speech.binaryString)) && audioUrl == Some(objectUrl)
      ensures script.Some? && !speech.SpeechAudio? ==>
        && status == Error && error == SpeechError(speech)
        && audioUrl == old(audioUrl) && audioBlob == old(audioBlob)
    {
      if script.None? {
        return None;
      }
      status := AudioGenerating;
      narration := Some(Narration(script.value.scenes));
      match speech {
        case SpeechFailed(message) =>
          error := Some(ErrorText(message, "Audio synthesis error."));
          status := Error;
        case SpeechWithoutAudio =>
          error := Some(VoiceMissing);
          status := Error;
        case SpeechAudio(binaryString) =>
          StoreNarration(binaryString, objectUrl);
          status := ScriptReview;
      }
    }

    /** The success path of `generateAudio`: decode the audio, wrap it in a WAVE file, keep the file and its object URL. */
    method StoreNarration(binaryString: seq<CodeUnit>, objectUrl: string)
      modifies this`audioUrl, this`audioBlob
      ensures audioBlob == Some(NarrationWav(binaryString)) && audioUrl == Some(objectUrl)
    {
      var pcmData := DecodeBase64ToUint8Array(binaryString);
      assert pcmData[..] == DecodedBytes(binaryString);
      var wavBlob := WrapPcmInWav(pcmData);
      audioBlob := Some(wavBlob);
      audioUrl := Some(objectUrl);
    }

    /**
     * `generateSingleImage(index)`: nothing without a script, for an index with no scene, or for a
     * scene with an empty prompt. Otherwise only slot `index` may change: to the inline data, if
     * any; a thrown error sets the scene's error message and keeps the status; the busy image index
     * ends cleared.
     */
    method GenerateSingleImage(index: nat, response: ImageOutcome)
      requires Valid()
      modifies this`images, this`error, this`imageGeneratingIndex
      ensures Valid()
      ensures script.None? || index >= |script.value.scenes| || script.value.scenes[index].imagePrompt == "" ==>
        images == old(images) && error == old(error) && imageGeneratingIndex == old(imageGeneratingIndex)
      ensures script.Some? && index < |script.value.scenes| && script.value.scenes[index].imagePrompt != "" ==>
        && images == old(images)[index := ImageSlotAfter(old(images)[index], response)]
        && error == (if response.ImageFailed? then Some(SceneError(index, " rendering failed.")) else old(error))
        && imageGeneratingIndex == None
    {
      if script.None? || index >= |script.value.scenes| || script.value.scenes[index].imagePrompt == "" {
        return;
      }
      imageGeneratingIndex := Some(index);
      match response {
        case ImageInline(data) =>
          images := images[index := data];
        case ImageWithoutInline =>
        case ImageFailed(_) =>
          error := Some(SceneError(index, " rendering failed."));
      }
      imageGeneratingIndex := None;
    }

    /**
     * `generateSingleVideo(index)`: nothing without a script or when image slot `index` is empty or
     * missing. Otherwise only video slot `index` may change: to the fetched video's object URL; a
     * job without a video URI changes nothing; a thrown error sets the scene's error message and
     * keeps the status; the busy video index ends cleared.
     */
    method GenerateSingleVideo(index: nat, response: VideoOutcome)
      requires Valid()
      modifies this`videos, this`error, this`videoGeneratingIndex
      ensures Valid()
      ensures script.None? || index >= |images| || images[index] == "" ==>
        videos == old(videos) && error == old(error) && videoGeneratingIndex == old(videoGeneratingIndex)
      ensures script.Some? && index < |images| && images[index] != "" ==>
        && videos == (if response.VideoFetched? then old(videos)[index := Some(response.objectUrl)] else old(videos))
        && error == (if response.VideoFailed? then Some(SceneError(index, " video generation failed.")) else old(error))
        && videoGeneratingIndex == None
    {
      if script.None? || index >= |images| || images[index] == "" {
        return;
      }
      videoGeneratingIndex := Some(index);
      match response {
        case VideoFetched(objectUrl) =>
          videos := videos[index := Some(objectUrl)];
        case VideoWithoutUri =>
        case VideoFailed =>
          error := Some(SceneError(index, " video generation failed."));
      }
      videoGeneratingIndex := None;
    }
    /**
     * The image loop of `generateAllAssets`: scenes in ascending order, one call at a time, each
     * marking its scene busy and writing only its own slot; the first call that throws ends it.
     * Returns the index of that call, or the number of scenes.
     */
    method RenderImagesInOrder(responses: seq<ImageOutcome>) returns (stop: nat)
      requires |responses| == |images|
      modifies this`images, this`imageGeneratingIndex
      ensures stop == FirstImageFailure(responses)
      ensures images == BatchImages(old(images), responses, stop)
      ensures imageGeneratingIndex ==
        if stop < |responses| then Some(stop)
        else if responses == [] then old(imageGeneratingIndex)
        else Some(|responses| - 1)
    {
      var i := 0;
      while i < |responses|
        invariant i <= |responses| && |images| == |responses|
        invariant forall j :: 0 <= j < i ==> !responses[j].ImageFailed?
        invariant images == BatchImages(old(images), responses, i)
        invariant imageGeneratingIndex == if i == 0 then old(imageGeneratingIndex) else Some(i - 1)
      {
        imageGeneratingIndex := Some(i);
        BatchImagesStep(old(images), responses, i);
        match responses[i] {
          case ImageFailed(_) =>
            FirstFailureAt(responses, i);
            return i;
          case ImageInline(data) =>
            images := images[i := data];
          case ImageWithoutInline =>
        }
        i := i + 1;
      }
      FirstFailureAt(responses, i);
      stop := i;
    }

    /**
     * The image phase of `generateAllAssets`: the error is cleared, the images are rendered in
     * order, and a call that throws ends the phase with its message (or the fallback) and the
     * error status.
     */
    method RenderBatch(responses: seq<ImageOutcome>) returns (stop: nat)
      requires |responses| == |images|
      modifies this`status, this`error, this`images, this`imageGeneratingIndex
      ensures stop == FirstImageFailure(responses)
      ensures images == BatchImages(old(images), responses, stop)
      ensures stop < |responses| ==>
        && status == Error && imageGeneratingIndex == Some(stop)
        && error == Some(ErrorText(responses[stop].message, "Batch asset generation failed."))
      ensures stop == |responses| ==> status == ImagesGenerating && error == None
      ensures stop == |responses| ==>
        imageGeneratingIndex == if responses == [] then old(imageGeneratingIndex) else Some(|responses| - 1)
    {
      error := None;
      status := ImagesGenerating;
      stop := RenderImagesInOrder(responses);
      if stop < |responses| {
        error := Some(ErrorText(responses[stop].message, "Batch asset generation failed."));
        status := Error;
      }
    }

    /**
     * `generateAllAssets` as written: nothing without a script. Otherwise the error is cleared and
     * every scene's image is rendered in order; when a call throws the error status is set and the
     * narration is never requested. Otherwise the busy image index is cleared, `generateAudio`
     * runs, and the status is set to completed whatever the narration's outcome.
     */
    method GenerateAllAssets(responses: seq<ImageOutcome>, speech: SpeechOutcome, objectUrl: string)
      returns (narration: Option<string>)
      requires Valid()
      requires script.Some? ==> |responses| == |script.value.scenes|
      modifies this`status, this`error, this`images, this`imageGeneratingIndex, this`audioUrl, this`audioBlob
      ensures Valid()
      ensures script.None? ==>
        && narration == None && images == old(images) && status == old(status) && error == old(error)
        && audioUrl == old(audioUrl) && audioBlob == old(audioBlob)
        && imageGeneratingIndex == old(imageGeneratingIndex)
      ensures script.Some? ==>
        images == BatchImages(old(images), responses, FirstImageFailure(responses))
      ensures script.Some? && FirstImageFailure(responses) < |responses| ==>
        && status == Error
        && error == Some(ErrorText(responses[FirstImageFailure(responses)].message, "Batch asset generation failed."))
        && imageGeneratingIndex == Some(FirstImageFailure(responses))
        && narration == None && audioUrl == old(audioUrl) && audioBlob == old(audioBlob)
      ensures script.Some? && FirstImageFailure(responses) == |responses| ==>
        && status == Completed && imageGeneratingIndex == None && error == SpeechError(speech)
        && narration == Some(Narration(script.value.scenes))
        && audioBlob == (if speech.SpeechAudio? then Some(NarrationWav(speech.binaryString)) else old(audioBlob))
        && audioUrl == (if speech.SpeechAudio? then Some(objectUrl) else old(audioUrl))
    {
      if script.None? {
        return None;
      }
      var stop := RenderBatch(responses);
      if stop < |responses| {
        return None;
      }
      imageGeneratingIndex := None;
      narration := GenerateAudio(speech, objectUrl);
      status := Completed;
    }

    /**
     * `generateAllAssets` as evidently intended: the busy image index is cleared however the image
     * loop ends, and a failed narration leaves the error status instead of completed.
     */
    method GenerateAllAssetsCorrected(responses: seq<ImageOutcome>, speech: SpeechOutcome, objectUrl: string)
      returns (narration: Option<string>)
      requires Valid()
      requires script.Some? ==> |responses| == |script.value.scenes|
      modifies this`status, this`error, this`images, this`imageGeneratingIndex, this`audioUrl, this`audioBlob
      ensures Valid()
      ensures script.None? ==>
        && narration == None && images == old(images) && status == old(status) && error == old(error)
        && audioUrl == old(audioUrl) && audioBlob == old(audioBlob)
        && imageGeneratingIndex == old(imageGeneratingIndex)
      ensures script.Some? ==>
        && images == BatchImages(old(images), responses, FirstImageFailure(responses))
        && imageGeneratingIndex == None
        && (status == Completed <==> FirstImageFailure(responses) == |responses| && speech.SpeechAudio?)
        && (status != Completed ==> status == Error && error.Some?)
      ensures script.Some? && FirstImageFailure(responses) < |responses| ==>
        && error == Some(ErrorText(responses[FirstImageFailure(responses)].message, "Batch asset generation failed."))
        && narration == None && audioUrl == old(audioUrl) && audioBlob == old(audioBlob)
      ensures script.Some? && FirstImageFailure(responses) == |responses| ==>
        && error == SpeechError(speech)
        && narration == Some(Narration(script.value.scenes))
        && audioBlob == (if speech.SpeechAudio? then Some(NarrationWav(speech.binaryString)) else old(audioBlob))
        && audioUrl == (if speech.SpeechAudio? then Some(objectUrl) else old(audioUrl))
    {
      if script.None? {
        return None;
      }
      var stop := RenderBatch(responses);
      imageGeneratingIndex := None;
      if stop < |responses| {
        return None;
      }
      narration := GenerateAudio(speech, objectUrl);
      if status != Error {
        status := Completed;
      }
    }

    /**
     * `createZip` as written: nothing without a script and a narration file. Otherwise the status
     * becomes zipping; a generated archive holds the folder named after the title with the entry
     * names in order and the narration, and the status becomes completed; on failure only the
     * error is set and the status stays zipping.
     */
    method CreateZip(outcome: ZipOutcome)
      modifies this`status, this`error, this`zipBlob
      ensures script.None? || audioBlob.None? ==>
        status == old(status) && error == old(error) && zipBlob == old(zipBlob)
      ensures script.Some? && audioBlob.Some? && outcome.ZipGenerated? ==>
        && status == Completed && error == old(error)
        && zipBlob == Some(Archive(FolderName(script.value.title), EntryNames(images, videos), audioBlob.value))
      ensures script.Some? && audioBlob.Some? && outcome.ZipFailed? ==>
        status == Zipping && error == Some(ZipFailedMessage) && zipBlob == old(zipBlob)
    {
      if script.None? || audioBlob.None? {
        return;
      }
      status := Zipping;
      match outcome {
        case ZipGenerated =>
          zipBlob := Some(Archive(FolderName(script.value.title), EntryNames(images, videos), audioBlob.value));
          status := Completed;
        case ZipFailed =>
          error := Some(ZipFailedMessage);
      }
    }

    /** `createZip` as evidently intended: a failure reports the error and restores the status it started from. */
    method CreateZipCorrected(outcome: ZipOutcome)
      modifies this`status, this`error, this`zipBlob
      ensures script.None? || audioBlob.None? ==>
        status == old(status) && error == old(error) && zipBlob == old(zipBlob)
      ensures script.Some? && audioBlob.Some? && outcome.ZipGenerated? ==>
        && status == Completed && error == old(error)
        && zipBlob == Some(Archive(FolderName(script.value.title), EntryNames(images, videos), audioBlob.value))
      ensures script.Some? && audioBlob.Some? && outcome.ZipFailed? ==>
        status == old(status) && error == Some(ZipFailedMessage) && zipBlob == old(zipBlob)
      ensures !old(Processing()) ==> !Processing()
    {
      if script.None? || audioBlob.None? {
        return;
      }
      var before := status;
      status := Zipping;
      match outcome {
        case ZipGenerated =>
          zipBlob := Some(Archive(FolderName(script.value.title), EntryNames(images, videos), audioBlob.value));
          status := Completed;
        case ZipFailed =>
          error := Some(ZipFailedMessage);
          status := before;
      }
    }

    /** `handleDownloadZip`'s file name: the folder name and "_bundle.zip", when there is an archive and a script. */
    function DownloadFileName(): (r: Option<string>)
      reads this`zipBlob, this`script
      ensures r.Some? <==> zipBlob.Some? && script.Some?
      ensures r.Some? ==> r.value == FolderName(script.value.title) + "_bundle.zip"
    {
      if zipBlob.None? || script.None? then None else Some(DownloadName(script.value.title))
    }

    /** `updateSceneText`: replaces the narration line of one scene; nothing else changes. */
    method UpdateSceneText(index: nat, text: string)
      requires Valid()
      modifies this`script
      ensures Valid()
      ensures old(script).None? || index >= |old(script).value.scenes| ==> script == old(script)
      ensures old(script).Some? && index < |old(script).value.scenes| ==>
        var s := old(script).value;
        script == Some(s.(scenes := s.scenes[index := s.scenes[index].(text := text)]))
    {
      if script.None? || index >= |script.value.scenes| {
        return;
      }
      var s := script.value;
      script := Some(s.(scenes := s.scenes[index := s.scenes[index].(text := text)]));
    }

    /** `updateScenePrompt`: replaces the visual prompt of one scene; nothing else changes. */
    method UpdateScenePrompt(index: nat, prompt: string)
      requires Valid()
      modifies this`script
      ensures Valid()
      ensures old(script).None? || index >= |old(script).value.scenes| ==> script == old(script)
      ensures old(script).Some? && index < |old(script).value.scenes| ==>
        var s := old(script).value;
        script == Some(s.(scenes := s.scenes[index := s.scenes[index].(imagePrompt := prompt)]))
    {
      if script.None? || index >= |script.value.scenes| {
        return;
      }
      var s := script.value;
      script := Some(s.(scenes := s.scenes[index := s.scenes[index].(imagePrompt := prompt)]));
    }

    /** The background-music field's edit: replaces the first prompt; nothing else changes. */
    method UpdateBgmPrompt(prompt: string)
      requires Valid()
      modifies this`script
      ensures Valid()
      ensures old(script).None? ==> script == old(script)
      ensures old(script).Some? ==>
        var s := old(script).value;
        script == Some(s.(bgmPrompts := s.bgmPrompts[0 := prompt]))
    {
      if script.None? {
        return;
      }
      var s := script.value;
      script := Some(s.(bgmPrompts := s.bgmPrompts[0 := prompt]));
    }
  }

  /** The first failing call is the one at `i` when every earlier call went through. */
  lemma {:induction false} FirstFailureAt(responses: seq<ImageOutcome>, i: nat)
    requires i <= |responses|
    requires forall j :: 0 <= j < i ==> !responses[j].ImageFailed?
    requires i < |responses| ==> responses[i].ImageFailed?
    ensures FirstImageFailure(responses) == i
  {
    if i > 0 {
      FirstFailureAt(responses[1..], i - 1);
    }
  }

  // ---------------------------------------------------------------------------------------------
  // Runs that show where the entry points as written differ from what they evidently intend

  /** The one scene of the scripts in the runs below. */
  const StallScenes: seq<Scene> := [Scene("Steam rises from the stall.", "a steaming street food stall at night")]

  /** A fresh page after drafting a one-scene script titled `title` from the topic "winter". */
  method DraftedProject(title: string) returns (p: Project)
    ensures fresh(p) && p.Valid()
    ensures p.status == ScriptReview && p.error == None
    ensures p.script == Some(ShortsScript(title, StallScenes, [DefaultBgmPrompt]))
    ensures p.images == [""] && p.videos == [None]
    ensures p.audioUrl == None && p.audioBlob == None && p.zipBlob == None
    ensures p.imageGeneratingIndex == None && p.videoGeneratingIndex == None
  {
    p := new Project();
    assert !IsBlank("winter") by { assert !IsWhitespace("winter"[0]); }
    p.GenerateScriptDraft("winter", ScriptParsed(title, StallScenes, None));
    assert p.images == [""] && p.videos == [None];
  }

  /** A fresh page after drafting and a batch in which the image and the narration (from `audio`) both arrive. */
  method CompletedProject(audio: seq<CodeUnit>) returns (p: Project)
    ensures fresh(p) && p.Valid()
    ensures p.status == Completed && p.error == None
    ensures p.script == Some(ShortsScript("Winter", StallScenes, [DefaultBgmPrompt]))
    ensures p.audioUrl.Some? && p.audioBlob == Some(NarrationWav(audio))
    ensures p.imageGeneratingIndex == None && p.videoGeneratingIndex == None
  {
    p := DraftedProject("Winter");
    var request := p.GenerateAllAssets([ImageInline("iVBORw0KGgo")], SpeechAudio(audio), "blob:narration");
  }

  /** A batch whose image call throws ends in the error status with the busy image index still set, so the draft, batch and per-image buttons stay disabled until the page is reloaded. */
  method BatchFailureLocksControls() returns (locked: bool)
    ensures locked
  {
    var p := DraftedProject("Winter");
    var request := p.GenerateAllAssets([ImageFailed("quota exceeded")], SpeechWithoutAudio, "blob:narration");
    locked := p.status == Error && p.Processing();
  }

  /** The same run against the corrected batch: the error status with nothing in flight. */
  method BatchFailureCorrectedUnlocks() returns (unlocked: bool)
    ensures unlocked
  {
    var p := DraftedProject("Winter");
    var request := p.GenerateAllAssetsCorrected([ImageFailed("quota exceeded")], SpeechWithoutAudio, "blob:narration");
    unlocked := p.status == Error && !p.Processing();
  }

  /** A batch whose narration fails is reported complete, with an error message and no narration. */
  method NarrationFailureReportsCompleted() returns (completed: bool)
    ensures completed
  {
    var p := DraftedProject("Winter");
    var request := p.GenerateAllAssets([ImageInline("iVBORw0KGgo")], SpeechFailed("quota exceeded"), "blob:narration");
    completed := p.status == Completed && p.error == Some("quota exceeded") && p.audioBlob == None;
  }

  /** The same run against the corrected batch ends in the error status. */
  method NarrationFailureCorrectedHalts() returns (halted: bool)
    ensures halted
  {
    var p := DraftedProject("Winter");
    var request := p.GenerateAllAssetsCorrected([ImageInline("iVBORw0KGgo")], SpeechFailed("quota exceeded"), "blob:narration");
    halted := p.status == Error && p.error == Some("quota exceeded");
  }

  /** Packaging that fails leaves the zipping status, which counts as in flight, so the draft, batch and per-image buttons stay disabled until the page is reloaded. */
  method ZipFailureLocksControls(audio: seq<CodeUnit>) returns (locked: bool)
    ensures locked
  {
    var p := CompletedProject(audio);
    p.CreateZip(ZipFailed);
    locked := p.status == Zipping && p.Processing();
  }

  /** The same run against the corrected packaging returns to the completed status with nothing in flight. */
  method ZipFailureCorrectedUnlocks(audio: seq<CodeUnit>) returns (unlocked: bool)
    ensures unlocked
  {
    var p := CompletedProject(audio);
    p.CreateZipCorrected(ZipFailed);
    unlocked := p.status == Completed && p.error == Some(ZipFailedMessage) && !p.Processing();
  }

  /**
   * A second draft keeps the first narration file, whatever its audio: after a batch whose narration fails the page
   * reports completion, and the archive pairs the second script with the first script's narration.
   */
  method RedraftPackagesStaleNarration(firstAudio: seq<CodeUnit>) returns (stale: bool)
    ensures stale
  {
    var p := CompletedProject(firstAudio);
    assert !IsBlank("summer") by { assert !IsWhitespace("summer"[0]); }
    p.GenerateScriptDraft("summer", ScriptParsed("Summer", StallScenes, None));
    assert p.audioBlob == Some(NarrationWav(firstAudio)) && p.script.value.title == "Summer";
    var request := p.GenerateAllAssets([ImageInline("iVBORw0KGgo")], SpeechFailed("quota exceeded"), "blob:second");
    assert p.status == Completed && p.audioBlob == Some(NarrationWav(firstAudio));
    p.CreateZip(ZipGenerated);
    stale := p.status == Completed && p.audioUrl == None && p.script.value.title == "Summer"
             && p.zipBlob.Some? && p.zipBlob.value.narration == NarrationWav(firstAudio);
  }

  /** The same run with the corrected draft: no narration is left, so nothing is packaged. */
  method RedraftCorrectedDropsNarration(firstAudio: seq<CodeUnit>) returns (dropped: bool)
    ensures dropped
  {
    var p := CompletedProject(firstAudio);
    assert !IsBlank("summer") by { assert !IsWhitespace("summer"[0]); }
    p.GenerateScriptDraftCorrected("summer", ScriptParsed("Summer", StallScenes, None));
    assert p.audioBlob == None && p.zipBlob == None;
    var request := p.GenerateAllAssets([ImageInline("iVBORw0KGgo")], SpeechFailed("quota exceeded"), "blob:second");
    assert p.audioBlob == None && p.zipBlob == None;
    p.CreateZip(ZipGenerated);
    dropped := p.audioBlob == None && p.zipBlob == None;
  }
}
