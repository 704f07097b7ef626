/** The MIME types accepted for document, image and video attachments, and the file
    extensions each one allows.  The named constants of each category are a datatype;
    their string values and extension lists are functions of it, and the tables keyed by
    MIME string are built from those functions entry by entry, as object literals are. */
module MediaTypes {

  datatype DocumentMimeType = Pdf | Csv | Doc | Docx | Xls | Xlsx | Html | Txt | Md
  datatype ImageMimeType = Png | Jpeg | Gif | Webp
  datatype VideoMimeType = Mkv | Mov | Mp4 | Webm | Flv | Mpeg | Wmv | ThreeGp

  /** `SupportedMimeType`, the spread of the three constant objects.  Their constant names
      are distinct, so no constant of one category hides one of another. */
  datatype SupportedMimeType =
    | Document(document: DocumentMimeType)
    | Image(image: ImageMimeType)
    | Video(video: VideoMimeType)

  /** Document MIME values, written as type and subtype. */
  function DocumentValue(d: DocumentMimeType): string {
    match d
    case Pdf => "application/" + "pdf"
    case Csv => "text/" + "csv"
    case Doc => "application/" + "msword"
    case Docx => "application/" + "vnd.openxmlformats-officedocument.wordprocessingml.document"
    case Xls => "application/" + "vnd.ms-excel"
    case Xlsx => "application/" + "vnd.openxmlformats-officedocument.spreadsheetml.sheet"
    case Html => "text/" + "html"
    case Txt => "text/" + "plain"
    case Md => "text/" + "markdown"
  }

  function ImageValue(i: ImageMimeType): string {
    match i
    case Png => "image/png"
    case Jpeg => "image/jpeg"
    case Gif => "image/gif"
    case Webp => "image/webp"
  }

  function VideoValue(v: VideoMimeType): string {
    match v
    case Mkv => "video/x-matroska"
    case Mov => "video/quicktime"
    case Mp4 => "video/mp4"
    case Webm => "video/webm"
    case Flv => "video/x-flv"
    case Mpeg => "video/mpeg"
    case Wmv => "video/x-ms-wmv"
    case ThreeGp => "video/3gpp"
  }

  function Value(m: SupportedMimeType): string {
    match m
    case Document(d) => DocumentValue(d)
    case Image(i) => ImageValue(i)
    case Video(v) => VideoValue(v)
  }

  /** `documentMimeTypeToExtensions`. */
  function DocumentExtensions(d: DocumentMimeType): seq<string> {
    match d
    case Pdf => ["pdf"]
    case Csv => ["csv"]
    case Doc => ["doc"]
    case Docx => ["docx"]
    case Xls => ["xls"]
    case Xlsx => ["xlsx"]
    case Html => ["html"]
    case Txt => ["txt"]
    case Md => ["md"]
  }

  /** `imageMimeTypeToExtensions`. */
  function ImageExtensions(i: ImageMimeType): seq<string> {
    match i
    case Png => ["png"]
    case Jpeg => ["jpeg", "jpg"]
    case Gif => ["gif"]
    case Webp => ["webp"]
  }

  /** `videoMimeTypeToExtensions`; WMV has no extension because the header detector
      cannot recognise it. */
  function VideoExtensions(v: VideoMimeType): seq<string> {
    match v
    case Mkv => ["mkv"]
    case Mov => ["mov"]
    case Mp4 => ["mp4"]
    case Webm => ["webm"]
    case Flv => ["flv"]
    case Mpeg => ["mpeg", "mpg"]
    case Wmv => []
    case ThreeGp => ["3gp"]
  }

  function Extensions(m: SupportedMimeType): seq<string> {
    match m
    case Document(d) => DocumentExtensions(d)
    case Image(i) => ImageExtensions(i)
    case Video(v) => VideoExtensions(v)
  }

  /** The constants of each category in declaration order (`Object.values`). */
  const DocumentMimeTypes: seq<DocumentMimeType> := [Pdf, Csv, Doc, Docx, Xls, Xlsx, Html, Txt, Md]
  const ImageMimeTypes: seq<ImageMimeType> := [Png, Jpeg, Gif, Webp]
  const VideoMimeTypes: seq<VideoMimeType> := [Mkv, Mov, Mp4, Webm, Flv, Mpeg, Wmv, ThreeGp]

  /** Each constant is listed in its own category. */
  lemma Listed(m: SupportedMimeType)
    ensures m.Document? ==> m.document in DocumentMimeTypes
    ensures m.Image? ==> m.image in ImageMimeTypes
    ensures m.Video? ==> m.video in VideoMimeTypes
  {
    match m
    case Document(d) =>
      var k := match d
        case Pdf => 0 case Csv => 1 case Doc => 2 case Docx => 3 case Xls => 4
        case Xlsx => 5 case Html => 6 case Txt => 7 case Md => 8;
      assert DocumentMimeTypes[k] == d;
    case Image(i) =>
      var k := match i case Png => 0 case Jpeg => 1 case Gif => 2 case Webp => 3;
      assert ImageMimeTypes[k] == i;
    case Video(v) =>
      var k := match v
        case Mkv => 0 case Mov => 1 case Mp4 => 2 case Webm => 3 case Flv => 4
        case Mpeg => 5 case Wmv => 6 case ThreeGp => 7;
      assert VideoMimeTypes[k] == v;
  }

  /** Only JPEG and MPEG have two extensions, only WMV has none; every other type has one. */
  lemma ExtensionCount(m: SupportedMimeType)
    ensures |Extensions(m)| == if m == Image(Jpeg) || m == Video(Mpeg) then 2
                               else if m == Video(Wmv) then 0 else 1
  {
  }

  /** Extensions are written in lower case. */
  lemma ExtensionsLowerCase(m: SupportedMimeType, e: string)
    requires e in Extensions(m)
    ensures forall k :: 0 <= k < |e| ==> !('A' <= e[k] <= 'Z')
  {
  }

  lemma DocumentValueInjective(a: DocumentMimeType, b: DocumentMimeType)
    requires DocumentValue(a) == DocumentValue(b)
    ensures a == b
  {
  }

  lemma ImageValueInjective(a: ImageMimeType, b: ImageMimeType)
    requires ImageValue(a) == ImageValue(b)
    ensures a == b
  {
  }

  lemma VideoValueInjective(a: VideoMimeType, b: VideoMimeType)
    requires VideoValue(a) == VideoValue(b)
    ensures a == b
  {
  }

  /** The first letter of a value tells its category: `a` or `t` for documents, `i` for
      images, `v` for videos. */
  lemma DocumentCategory(d: DocumentMimeType)
    ensures |DocumentValue(d)| > 0 && (DocumentValue(d)[0] == 'a' || DocumentValue(d)[0] == 't')
  {
  }

  lemma ImageCategory(i: ImageMimeType)
    ensures |ImageValue(i)| > 0 && ImageValue(i)[0] == 'i'
  {
  }

  lemma VideoCategory(v: VideoMimeType)
    ensures |VideoValue(v)| > 0 && VideoValue(v)[0] == 'v'
  {
  }

  /** No two constants share a MIME value. */
  lemma ValueInjective(a: SupportedMimeType, b: SupportedMimeType)
    requires Value(a) == Value(b)
    ensures a == b
  {
    match (a, b)
    case (Document(x), Document(y)) => DocumentValueInjective(x, y);
    case (Image(x), Image(y)) => ImageValueInjective(x, y);
    case (Video(x), Video(y)) => VideoValueInjective(x, y);
    case (Document(x), Image(y)) => DocumentCategory(x); ImageCategory(y); assert false;
    case (Document(x), Video(y)) => DocumentCategory(x); VideoCategory(y); assert false;
    case (Image(x), Document(y)) => ImageCategory(x); DocumentCategory(y); assert false;
    case (Image(x), Video(y)) => ImageCategory(x); VideoCategory(y); assert false;
    case (Video(x), Document(y)) => VideoCategory(x); DocumentCategory(y); assert false;
    case (Video(x), Image(y)) => VideoCategory(x); ImageCategory(y); assert false;
  }

  /** An object literal `{ [value(x)]: extensions(x), ... }` over the listed constants; a
      later entry would replace an earlier one with the same key. */
  function Table<T>(xs: seq<T>, value: T -> string, extensions: T -> seq<string>): map<string, seq<string>>
  {
    if xs == [] then map[]
    else Table(xs[..|xs| - 1], value, extensions)[value(xs[|xs| - 1]) := extensions(xs[|xs| - 1])]
  }

  /** When no two constants share a value, the keys of a table are the values of its
      constants, and each key maps to the extensions of its constant. */
  lemma {:induction false} TableEntries<T>(xs: seq<T>, value: T -> string, extensions: T -> seq<string>)
    requires forall a, b :: a in xs && b in xs && value(a) == value(b) ==> a == b
    ensures Table(xs, value, extensions).Keys == set x | x in xs :: value(x)
    ensures forall x :: x in xs ==> Table(xs, value, extensions)[value(x)] == extensions(x)
  {
    if xs != [] {
      var init := xs[..|xs| - 1];
      var last := xs[|xs| - 1];
      assert xs == init + [last];
      TableEntries(init, value, extensions);
    }
  }

  const DocumentMimeTypeToExtensions: map<string, seq<string>> :=
    Table(DocumentMimeTypes, DocumentValue, DocumentExtensions)
  const ImageMimeTypeToExtensions: map<string, seq<string>> :=
    Table(ImageMimeTypes, ImageValue, ImageExtensions)
  const VideoMimeTypeToExtensions: map<string, seq<string>> :=
    Table(VideoMimeTypes, VideoValue, VideoExtensions)

  /** `mimeTypeToExtensions`: the spread of the three tables, a later table winning on a
      shared key. */
  const MimeTypeToExtensions: map<string, seq<string>> :=
    DocumentMimeTypeToExtensions + ImageMimeTypeToExtensions + VideoMimeTypeToExtensions

  /** The keys of each per-category table are exactly the values of that category, and
      each maps to its constant's extensions. */
  lemma DocumentTable()
    ensures DocumentMimeTypeToExtensions.Keys == set d | d in DocumentMimeTypes :: DocumentValue(d)
    ensures forall d :: d in DocumentMimeTypes ==>
      DocumentMimeTypeToExtensions[DocumentValue(d)] == DocumentExtensions(d)
  {
    forall a, b | DocumentValue(a) == DocumentValue(b) ensures a == b { DocumentValueInjective(a, b); }
    TableEntries(DocumentMimeTypes, DocumentValue, DocumentExtensions);
  }

  lemma ImageTable()
    ensures ImageMimeTypeToExtensions.Keys == set i | i in ImageMimeTypes :: ImageValue(i)
    ensures forall i :: i in ImageMimeTypes ==>
      ImageMimeTypeToExtensions[ImageValue(i)] == ImageExtensions(i)
  {
    forall a, b | ImageValue(a) == ImageValue(b) ensures a == b { ImageValueInjective(a, b); }
    TableEntries(ImageMimeTypes, ImageValue, ImageExtensions);
  }

  lemma VideoTable()
    ensures VideoMimeTypeToExtensions.Keys == set v | v in VideoMimeTypes :: VideoValue(v)
    ensures forall v :: v in VideoMimeTypes ==>
      VideoMimeTypeToExtensions[VideoValue(v)] == VideoExtensions(v)
  {
    forall a, b | VideoValue(a) == VideoValue(b) ensures a == b { VideoValueInjective(a, b); }
    TableEntries(VideoMimeTypes, VideoValue, VideoExtensions);
  }

  /** The three per-category tables have pairwise disjoint keys, so the spread loses no
      entry. */
  lemma TablesDisjoint()
    ensures DocumentMimeTypeToExtensions.Keys !! ImageMimeTypeToExtensions.Keys
    ensures DocumentMimeTypeToExtensions.Keys !! VideoMimeTypeToExtensions.Keys
    ensures ImageMimeTypeToExtensions.Keys !! VideoMimeTypeToExtensions.Keys
  {
    DocumentTable();
    ImageTable();
    VideoTable();
    forall d | d in DocumentMimeTypes
      ensures DocumentValue(d) !in ImageMimeTypeToExtensions
      ensures DocumentValue(d) !in VideoMimeTypeToExtensions
    {
      DocumentCategory(d);
      forall i ensures DocumentValue(d) != ImageValue(i) { ImageCategory(i); }
      forall v ensures DocumentValue(d) != VideoValue(v) { VideoCategory(v); }
    }
    forall i | i in ImageMimeTypes
      ensures ImageValue(i) !in VideoMimeTypeToExtensions
    {
      ImageCategory(i);
      forall v ensures ImageValue(i) != VideoValue(v) { VideoCategory(v); }
    }
  }

  /** Every supported MIME value is a key of the merged table, found in its own
      category's table, and maps to that category's extensions for it. */
  lemma MimeTypeToExtensionsEntries(m: SupportedMimeType)
    ensures Value(m) in MimeTypeToExtensions
    ensures MimeTypeToExtensions[Value(m)] == Extensions(m)
    ensures m.Document? ==> Value(m) in DocumentMimeTypeToExtensions
    ensures m.Image? ==> Value(m) in ImageMimeTypeToExtensions
    ensures m.Video? ==> Value(m) in VideoMimeTypeToExtensions
  {
    TablesDisjoint();
    Listed(m);
    match m
    case Document(_) => DocumentTable();
    case Image(_) => ImageTable();
    case Video(_) => VideoTable();
  }

  /** A string is a key of the merged table only if it is the value of some constant. */
  lemma MimeTypeToExtensionsKeys(s: string)
    requires s in MimeTypeToExtensions
    ensures exists m :: Value(m) == s
  {
    if s in DocumentMimeTypeToExtensions {
      DocumentTable();
      var d :| d in DocumentMimeTypes && DocumentValue(d) == s;
      assert Value(Document(d)) == s;
    } else if s in ImageMimeTypeToExtensions {
      ImageTable();
      var i :| i in ImageMimeTypes && ImageValue(i) == s;
      assert Value(Image(i)) == s;
    } else {
      VideoTable();
      var v :| v in VideoMimeTypes && VideoValue(v) == s;
      assert Value(Video(v)) == s;
    }
  }
}
