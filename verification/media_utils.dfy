/** The browser-side checks on an attached file: which extensions the file picker offers,
    which kind of attachment a MIME type is, whether a file's extension fits its MIME type,
    and the clean-up applied to the MIME type read from the file header. */
module MediaUtils {
  import opened Wrappers
  import opened Strings
  import opened MediaTypes

  datatype FileType = ImageFile | VideoFile | OtherFile

  /** The sets built from `Object.values(ImageMimeType)` and `Object.values(VideoMimeType)`. */
  const ImageMimeTypeSet: set<string> := set i | i in ImageMimeTypes :: ImageValue(i)
  const VideoMimeTypeSet: set<string> := set v | v in VideoMimeTypes :: VideoValue(v)

  /** `getFileTypeFromMimeType`: image first, then video, anything else is a file. */
  function GetFileTypeFromMimeType(mimeType: string): (r: FileType)
    ensures r == ImageFile <==> mimeType in ImageMimeTypeSet
    ensures r == VideoFile <==> mimeType !in ImageMimeTypeSet && mimeType in VideoMimeTypeSet
  {
    if mimeType in ImageMimeTypeSet then ImageFile
    else if mimeType in VideoMimeTypeSet then VideoFile
    else OtherFile
  }

  /** Each supported MIME type is classified by its category: images as images, videos as
      videos, documents as files. */
  lemma FileTypeOfSupported(m: SupportedMimeType)
    ensures GetFileTypeFromMimeType(Value(m)) == match m
      case Image(_) => ImageFile
      case Video(_) => VideoFile
      case Document(_) => OtherFile
  {
    Listed(m);
    match m
    case Image(i) =>
    case Video(v) =>
      VideoCategory(v);
      forall j ensures ImageValue(j) != VideoValue(v) { ImageCategory(j); }
    case Document(d) =>
      DocumentCategory(d);
      forall j ensures ImageValue(j) != DocumentValue(d) { ImageCategory(j); }
      forall w ensures VideoValue(w) != DocumentValue(d) { VideoCategory(w); }
  }

  /** Only a supported MIME type is classified as an image or a video. */
  lemma FileTypeOnlyOfSupported(mimeType: string)
    ensures GetFileTypeFromMimeType(mimeType) != OtherFile ==> exists m :: Value(m) == mimeType
  {
    if mimeType in ImageMimeTypeSet {
      var i :| i in ImageMimeTypes && ImageValue(i) == mimeType;
      assert Value(Image(i)) == mimeType;
    } else if mimeType in VideoMimeTypeSet {
      var v :| v in VideoMimeTypes && VideoValue(v) == mimeType;
      assert Value(Video(v)) == mimeType;
    }
  }

  /** `extension.startsWith('.') ? extension.slice(1) : extension`. */
  function StripDot(extension: string): (r: string)
    ensures StartsWith(extension, ".") ==> extension == "." + r
    ensures !StartsWith(extension, ".") ==> r == extension
  {
    if StartsWith(extension, ".") then extension[1..] else extension
  }

  /** Only one leading dot is removed. */
  lemma StripDotOnce(ext: string)
    ensures StripDot("." + ext) == ext
    ensures StripDot("." + "." + ext) == "." + ext
  {
    assert ("." + ext)[..1] == ".";
    assert ("." + "." + ext)[..1] == ".";
    assert ("." + "." + ext)[1..] == "." + ext;
  }

  /** `validateMimeTypeAndExtension`: the MIME type must be a key of the merged table, and
      the extension, without one leading dot and lower-cased, one of its extensions. */
  function ValidateMimeTypeAndExtension(mimeType: string, extension: string): (ok: bool)
    ensures ok ==> mimeType in MimeTypeToExtensions
  {
    if mimeType in MimeTypeToExtensions then
      ToLower(StripDot(extension)) in MimeTypeToExtensions[mimeType]
    else false
  }

  /** For a supported MIME type, an extension validates exactly when its dot-less,
      lower-cased form is one of that type's extensions. */
  lemma ValidateSupported(m: SupportedMimeType, extension: string)
    ensures ValidateMimeTypeAndExtension(Value(m), extension)
        <==> ToLower(StripDot(extension)) in Extensions(m)
  {
    MimeTypeToExtensionsEntries(m);
  }

  /** Only a supported MIME type validates an extension, and then only one of its own. */
  lemma ValidateOnlySupported(mimeType: string, extension: string)
    ensures ValidateMimeTypeAndExtension(mimeType, extension)
        ==> exists m :: Value(m) == mimeType && ToLower(StripDot(extension)) in Extensions(m)
  {
    if ValidateMimeTypeAndExtension(mimeType, extension) {
      MimeTypeToExtensionsKeys(mimeType);
      var m :| Value(m) == mimeType;
      ValidateSupported(m, extension);
    }
  }

  /** WMV is supported but no extension validates for it. */
  lemma ValidateWmv(extension: string)
    ensures !ValidateMimeTypeAndExtension("video/x-ms-wmv", extension)
  {
    ValidateSupported(Video(Wmv), extension);
  }

  /** Case and a single leading dot do not matter: `.JPG` fits `image/jpeg`. */
  lemma ValidateJpgExample()
    ensures ValidateMimeTypeAndExtension("image/jpeg", ".JPG")
  {
    ValidateSupported(Image(Jpeg), ".JPG");
    StripDotOnce("JPG");
    assert ".JPG" == "." + "JPG";
    assert ToLower("JPG") == "jpg";
  }

  /** `addDot`. */
  function AddDot(extension: string): (r: string)
    ensures StripDot(r) == extension
  {
    StripDotOnce(extension);
    "." + extension
  }

  /** `Object.values(table).flat()`: the extension lists of the constants, in order. */
  function Flat<T>(xs: seq<T>, extensions: T -> seq<string>): seq<string>
  {
    if xs == [] then [] else Flat(xs[..|xs| - 1], extensions) + extensions(xs[|xs| - 1])
  }

  lemma {:induction false} FlatMembers<T>(xs: seq<T>, extensions: T -> seq<string>, e: string)
    ensures e in Flat(xs, extensions) <==> exists x :: x in xs && e in extensions(x)
  {
    if xs != [] {
      var init := xs[..|xs| - 1];
      var last := xs[|xs| - 1];
      FlatMembers(init, extensions, e);
      assert xs == init + [last];
      if e in extensions(last) {
        assert last in xs;
      }
    }
  }

  /** `.map(addDot)`. */
  function AddDots(xs: seq<string>): (r: seq<string>)
    ensures |r| == |xs|
    ensures forall k :: 0 <= k < |xs| ==> r[k] == AddDot(xs[k])
  {
    seq(|xs|, k requires 0 <= k < |xs| => AddDot(xs[k]))
  }

  /** A dotted list holds exactly the strings that start with a dot and lose it to an
      element of the list. */
  lemma AddDotsMembers(xs: seq<string>, x: string)
    ensures x in AddDots(xs) <==> StartsWith(x, ".") && StripDot(x) in xs
  {
    var r := AddDots(xs);
    if x in r {
      var k :| 0 <= k < |r| && r[k] == x;
      assert x[..1] == ".";
    }
    if StartsWith(x, ".") && StripDot(x) in xs {
      var k :| 0 <= k < |xs| && xs[k] == StripDot(x);
      assert r[k] == x;
    }
  }

  /** `AcceptedDotExtensions`, per category. */
  datatype Accepted = Accepted(doc: seq<string>, image: seq<string>, video: seq<string>)

  const AcceptedDotExtensions: Accepted := Accepted(
    AddDots(Flat(DocumentMimeTypes, DocumentExtensions)),
    AddDots(Flat(ImageMimeTypes, ImageExtensions)),
    AddDots(Flat(VideoMimeTypes, VideoExtensions)))

  /** The picker offers, per category, exactly the extensions of that category's MIME
      types, each with one leading dot. */
  lemma AcceptedPerCategory(x: string)
    ensures x in AcceptedDotExtensions.image
        <==> StartsWith(x, ".") && exists i :: StripDot(x) in ImageExtensions(i)
    ensures x in AcceptedDotExtensions.video
        <==> StartsWith(x, ".") && exists v :: StripDot(x) in VideoExtensions(v)
    ensures x in AcceptedDotExtensions.doc
        <==> StartsWith(x, ".") && exists d :: StripDot(x) in DocumentExtensions(d)
  {
    AddDotsMembers(Flat(ImageMimeTypes, ImageExtensions), x);
    AddDotsMembers(Flat(VideoMimeTypes, VideoExtensions), x);
    AddDotsMembers(Flat(DocumentMimeTypes, DocumentExtensions), x);
    FlatMembers(ImageMimeTypes, ImageExtensions, StripDot(x));
    FlatMembers(VideoMimeTypes, VideoExtensions, StripDot(x));
    FlatMembers(DocumentMimeTypes, DocumentExtensions, StripDot(x));
    forall i ensures i in ImageMimeTypes { Listed(Image(i)); }
    forall v ensures v in VideoMimeTypes { Listed(Video(v)); }
    forall d ensures d in DocumentMimeTypes { Listed(Document(d)); }
  }

  /** Every extension the picker offers for images or videos passes validation against
      some MIME type of that category. */
  lemma AcceptedValidates(x: string)
    ensures x in AcceptedDotExtensions.image
        ==> exists i :: ValidateMimeTypeAndExtension(ImageValue(i), x)
    ensures x in AcceptedDotExtensions.video
        ==> exists v :: ValidateMimeTypeAndExtension(VideoValue(v), x)
    ensures x in AcceptedDotExtensions.doc
        ==> exists d :: ValidateMimeTypeAndExtension(DocumentValue(d), x)
  {
    AcceptedPerCategory(x);
    var e := StripDot(x);
    if x in AcceptedDotExtensions.image {
      var i :| e in ImageExtensions(i);
      ExtensionsLowerCase(Image(i), e);
      ToLowerOfLower(e);
      ValidateSupported(Image(i), x);
    }
    if x in AcceptedDotExtensions.video {
      var v :| e in VideoExtensions(v);
      ExtensionsLowerCase(Video(v), e);
      ToLowerOfLower(e);
      ValidateSupported(Video(v), x);
    }
    if x in AcceptedDotExtensions.doc {
      var d :| e in DocumentExtensions(d);
      ExtensionsLowerCase(Document(d), e);
      ToLowerOfLower(e);
      ValidateSupported(Document(d), x);
    }
  }

  /** `mimeTypeAlias`: header types that name MPEG video in another way. */
  const MimeTypeAlias: map<string, SupportedMimeType> :=
    map["video/MP1S" := Video(Mpeg), "video/MP2P" := Video(Mpeg)]

  /** The tail of `getMimeTypeFromFileHeader`: a missing or empty detection, or the
      compound-document container `application/x-cfb`, falls back to the browser's
      `file.type`; an alias is then replaced by the type it names. */
  function NormaliseDetectedMimeType(detected: Option<string>, fileType: string): (r: string)
    ensures r !in MimeTypeAlias
  {
    assert "video/mpeg" != "video/MP1S" && "video/mpeg" != "video/MP2P" by {
      assert "video/mpeg"[6] == 'm';
    }
    var mimeType :=
      if detected == None || !Truthy(detected.value) || detected.value == "application/x-cfb"
      then fileType
      else detected.value;
    if mimeType in MimeTypeAlias then Value(MimeTypeAlias[mimeType]) else mimeType
  }

  /** The result is the (alias-resolved) detection, or the browser's type when detection
      gave nothing usable; it is never itself an alias. */
  lemma NormaliseCases(detected: Option<string>, fileType: string)
    ensures var r := NormaliseDetectedMimeType(detected, fileType);
            var fallback := detected == None || detected.value == ""
                            || detected.value == "application/x-cfb";
            var source := if fallback then fileType else detected.value;
            && r !in MimeTypeAlias
            && (source in MimeTypeAlias ==> r == "video/mpeg")
            && (source !in MimeTypeAlias ==> r == source)
  {
    assert "video/mpeg" != "video/MP1S" && "video/mpeg" != "video/MP2P" by {
      assert "video/mpeg"[6] == 'm';
    }
  }

  /** A detected supported MIME type is kept as it is. */
  lemma NormaliseKeepsSupported(m: SupportedMimeType, fileType: string)
    ensures NormaliseDetectedMimeType(Some(Value(m)), fileType) == Value(m)
  {
    match m
    case Document(d) =>
      DocumentCategory(d);
      assert Value(m) != "application/x-cfb" by {
        if DocumentValue(d)[0] == 'a' {
          assert |Value(m)| != 17;
        }
      }
      assert Value(m) !in MimeTypeAlias by {
        assert "video/MP1S"[0] == 'v' && "video/MP2P"[0] == 'v';
      }
    case Image(i) =>
      ImageCategory(i);
      assert Value(m) !in MimeTypeAlias by {
        assert "video/MP1S"[0] == 'v' && "video/MP2P"[0] == 'v';
      }
      assert "application/x-cfb"[0] == 'a';
    case Video(v) =>
      VideoCategory(v);
      assert "application/x-cfb"[0] == 'a';
      assert Value(m) !in MimeTypeAlias by {
        assert "video/MP1S"[6] == 'M' && "video/MP2P"[6] == 'M';
        assert VideoValue(v)[6] != 'M';
      }
  }

  /** An MPEG-1 system stream detection becomes MPEG video, and a cfb container falls
      back to the browser's type. */
  lemma NormaliseExamples(fileType: string)
    ensures NormaliseDetectedMimeType(Some("video/MP1S"), fileType) == "video/mpeg"
    ensures NormaliseDetectedMimeType(Some("application/x-cfb"), "text/plain") == "text/plain"
  {
  }
}
