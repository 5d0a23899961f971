/** The converter page: the chosen category, the chosen file, the output
    format and the converting flag, with the per-category tables it reads. */
module Converter {
  import opened Common

  datatype Category = Image | Video | Audio | Document

  /** The output formats offered for each category. */
  function Formats(c: Category): seq<string> {
    match c
    case Image => ["PNG", "JPG", "JPEG", "WEBP", "GIF", "SVG", "AVIF", "BMP", "TIFF", "ICO", "HEIC", "PDF"]
    case Video => ["MP4", "AVI", "MOV", "MKV", "WEBM", "FLV", "WMV", "M4V", "3GP"]
    case Audio => ["MP3", "WAV", "OGG", "AAC", "FLAC", "M4A", "WMA", "AIFF"]
    case Document => ["PDF", "DOCX", "DOC", "TXT", "MD", "HTML", "RTF", "ODT", "EPUB"]
  }

  /** The format selected when a category is chosen; it is always one of
      that category's offered formats, and the first of them. */
  function DefaultFormat(c: Category): (f: string)
    ensures f in Formats(c) && f == Formats(c)[0]
  {
    match c
    case Image => "PNG"
    case Video => "MP4"
    case Audio => "MP3"
    case Document => "PDF"
  }

  /** The MIME patterns the uploader accepts for each category. */
  function AcceptedMimes(c: Category): set<string> {
    match c
    case Image => {"image/*"}
    case Video => {"video/*"}
    case Audio => {"audio/*"}
    case Document => {"application/pdf", "application/msword", "text/*"}
  }

  /** The MIME patterns with their extensions, as the uploader is given them;
      its keys are exactly the category's patterns. */
  function AcceptedTypes(c: Category): (m: map<string, seq<string>>)
    ensures m.Keys == AcceptedMimes(c)
  {
    match c
    case Image => map["image/*" := [".png", ".jpg", ".jpeg", ".gif", ".webp", ".svg", ".avif"]]
    case Video => map["video/*" := [".mp4", ".avi", ".mov", ".mkv", ".webm"]]
    case Audio => map["audio/*" := [".mp3", ".wav", ".ogg", ".aac", ".flac"]]
    case Document => map["application/pdf" := [".pdf"],
                         "application/msword" := [".doc", ".docx"],
                         "text/*" := [".txt", ".md", ".html"]]
  }

  /** An extension as the file input expects it: a dot and a name. */
  predicate IsExtension(e: string) {
    |e| >= 2 && e[0] == '.'
  }

  /** Every pattern lists at least one extension, and each is well formed. */
  lemma AcceptedExtensionsWellFormed(c: Category, mime: string)
    requires mime in AcceptedTypes(c)
    ensures |AcceptedTypes(c)[mime]| >= 1
    ensures forall i :: 0 <= i < |AcceptedTypes(c)[mime]| ==> IsExtension(AcceptedTypes(c)[mime][i])
  {
    match c
    case Image =>
    case Video =>
    case Audio =>
    case Document =>
      if mime == "application/pdf" {
      } else if mime == "application/msword" {
      } else {
        assert mime == "text/*";
      }
  }

  /** A file handed over by the uploader. */
  datatype SelectedFile = SelectedFile(name: string)

  /** The toast the convert button ends with. */
  datatype Notice = NoFileSelected | ConversionComplete(format: string) | ConversionFailed

  class ConverterPage {
    var selectedCategory: Category
    var selectedFile: Option<SelectedFile>
    var outputFormat: string
    var isConverting: bool

    /** Images, no file, PNG, not converting; PNG is the image default. */
    constructor ()
      ensures selectedCategory == Image && selectedFile == None
      ensures outputFormat == "PNG" && outputFormat == DefaultFormat(Image)
      ensures !isConverting
    {
      selectedCategory, selectedFile, outputFormat, isConverting := Image, None, "PNG", false;
    }

    /** Choosing a category drops the selected file and selects the
        category's default format. */
    method CategoryChange(category: Category)
      modifies this`selectedCategory, this`selectedFile, this`outputFormat
      ensures selectedCategory == category && selectedFile == None
      ensures outputFormat == DefaultFormat(category) && outputFormat in Formats(category)
      ensures !ConvertEnabled()
    {
      selectedCategory := category;
      selectedFile := None;
      outputFormat := DefaultFormat(category);
    }

    method FileSelect(file: SelectedFile)
      modifies this`selectedFile
      ensures selectedFile == Some(file)
      ensures ConvertEnabled() <==> !isConverting
    {
      selectedFile := Some(file);
    }

    /** The format picker's onFormatChange. */
    method FormatChange(format: string)
      modifies this`outputFormat
      ensures outputFormat == format
    {
      outputFormat := format;
    }

    /** What the uploader is told to accept: always the current category's
        entry, so a document-category page accepts PDFs and an image page
        accepts no document type. */
    function UploaderAcceptedTypes(): (m: map<string, seq<string>>)
      reads this
      ensures m.Keys == AcceptedMimes(selectedCategory)
    {
      AcceptedTypes(selectedCategory)
    }

    /** The convert button is shown once a file is chosen and is disabled while
        a conversion runs. */
    predicate ConvertEnabled()
      reads this
    {
      selectedFile.Some? && !isConverting
    }

    /** The convert handler up to the wait: with no file nothing changes
        (the no-file toast follows); otherwise the flag is raised, which
        disables the convert button for the wait. */
    method BeginConvert() returns (started: bool)
      modifies this`isConverting
      ensures started <==> selectedFile.Some?
      ensures !started ==> isConverting == old(isConverting)
      ensures started ==> isConverting && !ConvertEnabled()
    {
      if selectedFile.None? {
        return false;
      }
      isConverting := true;
      started := true;
    }

    /** The convert handler after the wait, entered with the flag raised:
        `waitFails` says whether the wait threw. The toast matches the
        outcome and the flag is lowered in either case. */
    method FinishConvert(waitFails: bool) returns (notice: Notice)
      requires isConverting
      modifies this`isConverting
      ensures !isConverting
      ensures notice == if waitFails then ConversionFailed else ConversionComplete(outputFormat)
    {
      if waitFails {
        notice := ConversionFailed;
      } else {
        notice := ConversionComplete(outputFormat);
      }
      isConverting := false;
    }

    /** The whole convert handler: with no file nothing changes and the
        no-file toast is shown; otherwise the flag is up for the wait and down
        afterwards, and the toast reports the wait's outcome. */
    method Convert(waitFails: bool) returns (notice: Notice)
      modifies this`isConverting
      ensures old(selectedFile).None? ==> notice == NoFileSelected && isConverting == old(isConverting)
      ensures old(selectedFile).Some? ==>
                !isConverting
                && notice == (if waitFails then ConversionFailed else ConversionComplete(outputFormat))
    {
      var started := BeginConvert();
      if !started {
        notice := NoFileSelected;
        return;
      }
      // the two-second wait runs here, with the flag up
      assert isConverting;
      notice := FinishConvert(waitFails);
    }
  }
}
