/**
 * The names inside the downloadable bundle: one folder named after the script title, holding
 * `script.json`, `narration.wav`, `scene_<n>.png` for every filled image slot and `scene_<n>.mp4`
 * for every filled video slot, with 1-based scene numbers; and the name of the downloaded file.
 */
module Bundle {
  import opened Types
  import opened JsText

  /** The folder name: the title with every whitespace character replaced by '_'. */
  function FolderName(title: string): (r: string)
    ensures |r| == |title|
    ensures forall i :: 0 <= i < |r| ==> !IsWhitespace(r[i])
    ensures forall i :: 0 <= i < |r| ==> r[i] == (if IsWhitespace(title[i]) then '_' else title[i])
  {
    ReplaceWhitespace(title, '_')
  }

  /** The file name offered for download: the folder name followed by "_bundle.zip". */
  function DownloadName(title: string): (r: string)
    ensures |r| == |title| + 11 && r[..|title|] == FolderName(title) && r[|title|..] == "_bundle.zip"
  {
    FolderName(title) + "_bundle.zip"
  }

  /** A file in the bundle stands for an image slot when its base64 text is non-empty. */
  function ImageSlotsFilled(images: seq<string>): (f: seq<bool>)
    ensures |f| == |images| && forall i :: 0 <= i < |f| ==> (f[i] <==> images[i] != "")
  {
    seq(|images|, i requires 0 <= i < |images| => images[i] != "")
  }

  /** A video slot is packaged when it holds a non-empty object URL. */
  function VideoSlotsFilled(videos: seq<Option<string>>): (f: seq<bool>)
    ensures |f| == |videos| && forall i :: 0 <= i < |f| ==> (f[i] <==> videos[i].Some? && videos[i].value != "")
  {
    seq(|videos|, i requires 0 <= i < |videos| => videos[i].Some? && videos[i].value != "")
  }

  /** The 1-based numbers of the filled slots, in slot order. */
  function SlotNumbers(filled: seq<bool>): (nums: seq<nat>)
    ensures forall j :: 0 <= j < |nums| ==> 1 <= nums[j] <= |filled| && filled[nums[j] - 1]
    ensures forall j, k :: 0 <= j < k < |nums| ==> nums[j] < nums[k]
  {
    if filled == [] then []
    else
      var rest := SlotNumbers(filled[..|filled| - 1]);
      if filled[|filled| - 1] then rest + [|filled|] else rest
  }

  /** Every filled slot is listed. */
  lemma {:induction false} SlotNumbersComplete(filled: seq<bool>, k: nat)
    requires 1 <= k <= |filled| && filled[k - 1]
    ensures k in SlotNumbers(filled)
  {
    if k < |filled| {
      var init := filled[..|filled| - 1];
      assert init[k - 1] == filled[k - 1];
      SlotNumbersComplete(init, k);
    }
  }

  /** `scene_<n><ext>`, the name of scene n's file. */
  function SceneFile(n: nat, ext: string): string {
    "scene_" + DecimalString(n) + ext
  }

  /** The entries for the given scene numbers, in order. */
  function SceneFiles(nums: seq<nat>, ext: string): (r: seq<string>)
    ensures |r| == |nums| && forall j :: 0 <= j < |r| ==> r[j] == SceneFile(nums[j], ext)
  {
    seq(|nums|, j requires 0 <= j < |nums| => SceneFile(nums[j], ext))
  }

  /** The entry names of the bundle folder, in the order they are added. */
  function EntryNames(images: seq<string>, videos: seq<Option<string>>): (r: seq<string>)
    ensures |r| >= 2 && r[0] == "script.json" && r[1] == "narration.wav"
  {
    ["script.json", "narration.wav"]
    + SceneFiles(SlotNumbers(ImageSlotsFilled(images)), ".png")
    + SceneFiles(SlotNumbers(VideoSlotsFilled(videos)), ".mp4")
  }

  /** Scene file names determine the scene number and the extension. */
  lemma SceneFileInjective(a: nat, ea: string, b: nat, eb: string)
    requires ea in {".png", ".mp4"} && eb in {".png", ".mp4"}
    requires SceneFile(a, ea) == SceneFile(b, eb)
    ensures a == b && ea == eb
  {
    var da, db := DecimalString(a), DecimalString(b);
    var sa, sb := SceneFile(a, ea), SceneFile(b, eb);
    assert sa[6..] == da + ea && sb[6..] == db + eb;
    // the first '.' ends the digits, so both digit strings have the same length
    assert |da| == |db|;
    assert da == (da + ea)[..|da|] == (db + eb)[..|db|] == db;
    DecimalStringInjective(a, b);
    assert ea == (da + ea)[|da|..] == (db + eb)[|db|..] == eb;
  }

  /** No scene file is named like either fixed entry. */
  lemma SceneFileNotFixed(n: nat, ext: string)
    ensures SceneFile(n, ext) != "script.json" && SceneFile(n, ext) != "narration.wav"
  {
    var s := SceneFile(n, ext);
    assert s[1] == 'c' && s[2] == 'e';
  }

  /** The names are pairwise distinct, so no entry overwrites another. */
  lemma EntryNamesDistinct(images: seq<string>, videos: seq<Option<string>>)
    ensures var names := EntryNames(images, videos);
      forall i, j :: 0 <= i < j < |names| ==> names[i] != names[j]
  {
    var pngNums := SlotNumbers(ImageSlotsFilled(images));
    var mp4Nums := SlotNumbers(VideoSlotsFilled(videos));
    var png, mp4 := SceneFiles(pngNums, ".png"), SceneFiles(mp4Nums, ".mp4");
    var names := EntryNames(images, videos);
    forall i, j | 0 <= i < j < |names| ensures names[i] != names[j] {
      if j >= 2 {
        var nj, ej := if j < 2 + |png| then pngNums[j - 2] else mp4Nums[j - 2 - |png|],
                      if j < 2 + |png| then ".png" else ".mp4";
        assert names[j] == SceneFile(nj, ej);
        if i < 2 {
          SceneFileNotFixed(nj, ej);
        } else {
          var ni, ei := if i < 2 + |png| then pngNums[i - 2] else mp4Nums[i - 2 - |png|],
                        if i < 2 + |png| then ".png" else ".mp4";
          assert names[i] == SceneFile(ni, ei);
          if names[i] == names[j] {
            SceneFileInjective(ni, ei, nj, ej);
            assert false;
          }
        }
      }
    }
  }

  /** Every entry after the two fixed ones is the `.png` of a filled image slot or the `.mp4` of a filled video slot. */
  lemma EntryNamesOnlyExpected(images: seq<string>, videos: seq<Option<string>>, j: nat)
    requires 2 <= j < |EntryNames(images, videos)|
    ensures exists k: nat ::
      || (EntryNames(images, videos)[j] == SceneFile(k, ".png") && 1 <= k <= |images| && images[k - 1] != "")
      || (EntryNames(images, videos)[j] == SceneFile(k, ".mp4")
          && 1 <= k <= |videos| && videos[k - 1].Some? && videos[k - 1].value != "")
  {
    var pngNums := SlotNumbers(ImageSlotsFilled(images));
    var mp4Nums := SlotNumbers(VideoSlotsFilled(videos));
    var png := SceneFiles(pngNums, ".png");
    var names := EntryNames(images, videos);
    if j < 2 + |png| {
      var k := pngNums[j - 2];
      assert names[j] == SceneFile(k, ".png");
      assert ImageSlotsFilled(images)[k - 1];
    } else {
      var k := mp4Nums[j - 2 - |png|];
      assert names[j] == SceneFile(k, ".mp4");
      assert VideoSlotsFilled(videos)[k - 1];
    }
  }

  /** A number is listed exactly when its slot is filled. */
  lemma SlotNumbersMembership(filled: seq<bool>, k: nat)
    ensures k in SlotNumbers(filled) <==> 1 <= k <= |filled| && filled[k - 1]
  {
    if 1 <= k <= |filled| && filled[k - 1] {
      SlotNumbersComplete(filled, k);
    }
  }

  /** A scene file is among the files listed for `nums` with extension `ext` exactly when its number is listed and its extension is `ext`. */
  lemma SceneFilesMembership(nums: seq<nat>, ext: string, k: nat, e: string)
    requires ext in {".png", ".mp4"} && e in {".png", ".mp4"}
    ensures SceneFile(k, e) in SceneFiles(nums, ext) <==> e == ext && k in nums
  {
    var files := SceneFiles(nums, ext);
    if SceneFile(k, e) in files {
      var j :| 0 <= j < |files| && files[j] == SceneFile(k, e);
      SceneFileInjective(k, e, nums[j], ext);
    }
    if e == ext && k in nums {
      var j :| 0 <= j < |nums| && nums[j] == k;
      assert files[j] == SceneFile(k, e);
    }
  }

  /** `scene_<k>.png` is in the bundle exactly when image slot k-1 is filled; likewise `.mp4` for videos. */
  lemma SceneEntryPresence(images: seq<string>, videos: seq<Option<string>>, k: nat)
    ensures SceneFile(k, ".png") in EntryNames(images, videos) <==> 1 <= k <= |images| && images[k - 1] != ""
    ensures SceneFile(k, ".mp4") in EntryNames(images, videos)
            <==> 1 <= k <= |videos| && videos[k - 1].Some? && videos[k - 1].value != ""
  {
    var pngNums := SlotNumbers(ImageSlotsFilled(images));
    var mp4Nums := SlotNumbers(VideoSlotsFilled(videos));
    SceneFileNotFixed(k, ".png");
    SceneFileNotFixed(k, ".mp4");
    SceneFilesMembership(pngNums, ".png", k, ".png");
    SceneFilesMembership(mp4Nums, ".mp4", k, ".png");
    SceneFilesMembership(pngNums, ".png", k, ".mp4");
    SceneFilesMembership(mp4Nums, ".mp4", k, ".mp4");
    SlotNumbersMembership(ImageSlotsFilled(images), k);
    SlotNumbersMembership(VideoSlotsFilled(videos), k);
  }
}
