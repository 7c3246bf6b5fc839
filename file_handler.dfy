/** Upload validation and naming of the web front end's `FileHandler`
    (src/web/utils.py): the two extension whitelists, the generated name of a
    stored upload and the URL of a stored result.  Writing, moving and
    sanitising files are outside the model; the sanitised name is an input. */
module FileHandler {
  import opened Common

  const ImageExtensions: set<string> := {"png", "jpg", "jpeg", "bmp"}
  const VideoExtensions: set<string> := {"mp4", "avi", "mov", "mkv"}

  /** Where the results folder is served from. */
  const ResultsUrlPrefix: string := "/static/results/"
  const ResultPrefix: string := "result_"

  /** Index of the last '.' of `name`: the split point of `name.rsplit('.', 1)`. */
  function LastDot(name: string): (r: Option<nat>)
    ensures r.None? <==> '.' !in name
    ensures r.Some? ==> r.value < |name| && name[r.value] == '.' && '.' !in name[r.value + 1..]
  {
    if name == [] then None
    else if name[|name| - 1] == '.' then Some(|name| - 1)
    else
      var r := LastDot(name[..|name| - 1]);
      assert r.Some? ==> name[r.value + 1..] == name[..|name| - 1][r.value + 1..] + [name[|name| - 1]];
      r
  }

  /** `name.rsplit('.', 1)[1]` when `name` holds a dot; None where Python
      would raise an IndexError. */
  function Extension(name: string): (r: Option<string>)
    ensures r.Some? <==> '.' in name
    ensures r.Some? ==> '.' !in r.value && |r.value| < |name|
    ensures r.Some? ==> name == name[..|name| - |r.value| - 1] + "." + r.value
  {
    match LastDot(name)
    case None => None
    case Some(i) =>
      assert name == name[..i] + "." + name[i + 1..];
      Some(name[i + 1..])
  }

  /** In a stem joined to a dot-free extension, the last dot is the joining one. */
  lemma {:induction false} LastDotOfJoin(stem: string, ext: string)
    requires '.' !in ext
    ensures LastDot(stem + "." + ext) == Some(|stem|)
  {
    var name := stem + "." + ext;
    if ext != [] {
      assert name[|name| - 1] == ext[|ext| - 1];
      assert name[..|name| - 1] == stem + "." + ext[..|ext| - 1];
      LastDotOfJoin(stem, ext[..|ext| - 1]);
    }
  }

  /** The extension of a stem joined to a dot-free extension is that extension:
      whatever the stem holds, only the text after the final dot counts. */
  lemma ExtensionOfJoin(stem: string, ext: string)
    requires '.' !in ext
    ensures Extension(stem + "." + ext) == Some(ext)
  {
    LastDotOfJoin(stem, ext);
    assert (stem + "." + ext)[|stem| + 1..] == ext;
  }

  /** A dot with no dot after it is the last dot. */
  lemma LastDotUnique(name: string, i: nat)
    requires i < |name| && name[i] == '.' && '.' !in name[i + 1..]
    ensures LastDot(name) == Some(i)
  {
    assert name == name[..i] + "." + name[i + 1..];
    LastDotOfJoin(name[..i], name[i + 1..]);
  }

  /** The shared body of `is_allowed_image` and `is_allowed_video`. */
  function AllowedBy(extensions: set<string>, filename: string): bool
  {
    '.' in filename && Lower(Extension(filename).value) in extensions
  }

  /** A filename passes a whitelist iff it has a dot after which no further dot
      occurs and whose lower-cased remainder is in the whitelist. */
  lemma AllowedByIff(extensions: set<string>, filename: string)
    ensures AllowedBy(extensions, filename) <==>
      (exists i :: 0 <= i < |filename| && filename[i] == '.' && '.' !in filename[i + 1..]
                   && Lower(filename[i + 1..]) in extensions)
  {
    if AllowedBy(extensions, filename) {
      var i := LastDot(filename).value;
      assert filename[i + 1..] == Extension(filename).value;
    }
    if exists i :: 0 <= i < |filename| && filename[i] == '.' && '.' !in filename[i + 1..]
        && Lower(filename[i + 1..]) in extensions {
      var i :| 0 <= i < |filename| && filename[i] == '.' && '.' !in filename[i + 1..]
        && Lower(filename[i + 1..]) in extensions;
      LastDotUnique(filename, i);
    }
  }

  /** Every extension in a whitelist has between `lo` and `hi` characters. */
  ghost predicate ExtensionLengthsIn(extensions: set<string>, lo: nat, hi: nat)
  {
    forall e :: e in extensions ==> lo <= |e| <= hi
  }

  /** `FileHandler.is_allowed_image`. */
  function IsAllowedImage(filename: string): (ok: bool)
    ensures ok ==> '.' in filename && 3 <= |Extension(filename).value| <= 4
  {
    assert ExtensionLengthsIn(ImageExtensions, 3, 4);
    AllowedBy(ImageExtensions, filename)
  }

  /** `FileHandler.is_allowed_video`. */
  function IsAllowedVideo(filename: string): (ok: bool)
    ensures ok ==> '.' in filename && |Extension(filename).value| == 3
  {
    assert ExtensionLengthsIn(VideoExtensions, 3, 3);
    AllowedBy(VideoExtensions, filename)
  }

  /** An image name is accepted iff it has a dot, no dot follows that dot, and
      the lower-cased text after it is png, jpg, jpeg or bmp. */
  lemma IsAllowedImageIff(filename: string)
    ensures IsAllowedImage(filename) <==>
      (exists i :: 0 <= i < |filename| && filename[i] == '.' && '.' !in filename[i + 1..]
                   && Lower(filename[i + 1..]) in ImageExtensions)
  {
    AllowedByIff(ImageExtensions, filename);
  }

  /** A video name is accepted iff it has a dot, no dot follows that dot, and
      the lower-cased text after it is mp4, avi, mov or mkv. */
  lemma IsAllowedVideoIff(filename: string)
    ensures IsAllowedVideo(filename) <==>
      (exists i :: 0 <= i < |filename| && filename[i] == '.' && '.' !in filename[i + 1..]
                   && Lower(filename[i + 1..]) in VideoExtensions)
  {
    AllowedByIff(VideoExtensions, filename);
  }

  /** Case is ignored: an upper-case image extension is accepted. */
  lemma UpperCaseImageAccepted()
    ensures IsAllowedImage("A.JPG")
  {
    ExtensionOfJoin("A", "JPG");
    assert Lower("JPG") == "jpg";
  }

  /** "txt" is already lower case and on neither whitelist. */
  lemma TxtOnNoWhitelist()
    ensures Lower("txt") == "txt" && "txt" !in ImageExtensions && "txt" !in VideoExtensions
  {
    assert Lower("txt")[0] == 't';
  }

  /** Only the last extension counts: a double extension ending in an unknown
      one is rejected. */
  lemma DoubleExtensionRejected()
    ensures !IsAllowedImage("x.jpg.txt")
  {
    ExtensionOfJoin("x.jpg", "txt");
    assert "x.jpg" + "." + "txt" == "x.jpg.txt";
    TxtOnNoWhitelist();
  }

  /** An unknown extension is rejected by both whitelists. */
  lemma UnknownExtensionRejected()
    ensures !IsAllowedImage("test.txt") && !IsAllowedVideo("test.txt")
  {
    ExtensionOfJoin("test", "txt");
    assert "test" + "." + "txt" == "test.txt";
    TxtOnNoWhitelist();
  }

  /** A name without a dot is never accepted; in particular the empty name. */
  lemma NoDotRejected(filename: string)
    requires '.' !in filename
    ensures !IsAllowedImage(filename) && !IsAllowedVideo(filename)
  {
  }

  /** The whitelists are disjoint, so no name is both an image and a video. */
  lemma NoNameIsImageAndVideo(filename: string)
    ensures !(IsAllowedImage(filename) && IsAllowedVideo(filename))
  {
    assert ImageExtensions !! VideoExtensions;
  }

  /** The stored name `save_upload` builds: `prefix + "_" + hex + "." + ext`
      with `ext` the lower-cased last extension of the sanitised name.  None
      where the sanitised name has no dot and Python's `rsplit` indexing raises. */
  function UploadName(prefix: string, sanitized: string, hex: string): (r: Option<string>)
    ensures r.None? <==> '.' !in sanitized
    ensures r.Some? ==> Extension(r.value) == Some(Lower(Extension(sanitized).value))
    ensures r.Some? ==> |prefix| + 1 < |r.value| && r.value[..|prefix| + 1] == prefix + "_"
    ensures r.Some? ==>
      |r.value| == |prefix| + 1 + |hex| + 1 + |Extension(r.value).value|
      && r.value[|prefix| + 1..|prefix| + 1 + |hex|] == hex
      && r.value[|prefix| + 1 + |hex|] == '.'
  {
    match Extension(sanitized)
    case None => None
    case Some(ext) =>
      var name := prefix + "_" + hex + "." + Lower(ext);
      LowerKeepsDots(ext);
      ExtensionOfJoin(prefix + "_" + hex, Lower(ext));
      assert name[..|prefix| + 1] == prefix + "_";
      assert name[|prefix| + 1..|prefix| + 1 + |hex|] == hex;
      Some(name)
  }

  /** The stored name determines the uuid hex in it: two uploads stored
      under the same prefix with different hex strings get different names. */
  lemma UploadNameDeterminesHex(prefix: string, sanitized1: string, hex1: string, sanitized2: string, hex2: string)
    requires UploadName(prefix, sanitized1, hex1).Some? && UploadName(prefix, sanitized2, hex2).Some?
    ensures UploadName(prefix, sanitized1, hex1) == UploadName(prefix, sanitized2, hex2) ==> hex1 == hex2
  {
    if UploadName(prefix, sanitized1, hex1) == UploadName(prefix, sanitized2, hex2) {
      var name := UploadName(prefix, sanitized1, hex1).value;
      assert |hex1| == |hex2|;
      assert hex1 == name[|prefix| + 1..|prefix| + 1 + |hex1|];
      assert hex2 == name[|prefix| + 1..|prefix| + 1 + |hex2|];
    }
  }

  /** The stored name passes the same whitelists as the sanitised name. */
  lemma {:induction false} UploadNameKeepsVerdict(prefix: string, sanitized: string, hex: string)
    requires UploadName(prefix, sanitized, hex).Some?
    ensures IsAllowedImage(UploadName(prefix, sanitized, hex).value) == IsAllowedImage(sanitized)
    ensures IsAllowedVideo(UploadName(prefix, sanitized, hex).value) == IsAllowedVideo(sanitized)
  {
    var stored := UploadName(prefix, sanitized, hex).value;
    var ext := Extension(sanitized).value;
    LowerIdempotent(ext);
    assert AllowedBy(ImageExtensions, stored) == AllowedBy(ImageExtensions, sanitized);
    assert AllowedBy(VideoExtensions, stored) == AllowedBy(VideoExtensions, sanitized);
  }

  /** Recovers the original file name from a result URL; None for a URL that
      `save_result` cannot produce. */
  function OriginalOfResultUrl(url: string): (r: Option<string>)
    ensures r.Some? ==> |r.value| + |ResultsUrlPrefix| + |ResultPrefix| == |url|
  {
    var head := ResultsUrlPrefix + ResultPrefix;
    if |head| <= |url| && url[..|head|] == head then Some(url[|head|..]) else None
  }

  function ResultUrlOf(originalFilename: string): string
  {
    ResultsUrlPrefix + ResultPrefix + originalFilename
  }

  /** Only URLs built from a file name are recognised, and each gives back the
      name it was built from. */
  lemma ResultUrlRoundTrip(originalFilename: string, url: string)
    ensures OriginalOfResultUrl(ResultUrlOf(originalFilename)) == Some(originalFilename)
    ensures OriginalOfResultUrl(url) == Some(originalFilename) ==> url == ResultUrlOf(originalFilename)
  {
    var head := ResultsUrlPrefix + ResultPrefix;
    assert (head + originalFilename)[..|head|] == head;
    assert (head + originalFilename)[|head|..] == originalFilename;
    if OriginalOfResultUrl(url) == Some(originalFilename) {
      assert url == url[..|head|] + url[|head|..];
    }
  }

  /** `save_result`: the URL of the annotated image, `/static/results/result_<name>`. */
  function SaveResult(originalFilename: string): (url: string)
    ensures OriginalOfResultUrl(url) == Some(originalFilename)
    ensures |url| > |ResultsUrlPrefix| && url[..|ResultsUrlPrefix|] == ResultsUrlPrefix
  {
    ResultUrlRoundTrip(originalFilename, "");
    ResultUrlOf(originalFilename)
  }

  /** `save_video_result`: the moved output video gets the same URL scheme as an
      image result; where the output was written does not matter. */
  function SaveVideoResult(outputPath: string, originalFilename: string): (url: string)
    ensures OriginalOfResultUrl(url) == Some(originalFilename)
    ensures url == SaveResult(originalFilename)
  {
    ResultUrlRoundTrip(originalFilename, "");
    ResultUrlOf(originalFilename)
  }

  /** Distinct originals give distinct result URLs. */
  lemma ResultUrlInjective(a: string, b: string)
    requires SaveResult(a) == SaveResult(b)
    ensures a == b
  {
  }
}
