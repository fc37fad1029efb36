/**
 * The dialog process (calldk_ui.py) without its widgets: the image attachment
 * policy of `_process_image_file`, the image list the window keeps, submission,
 * `run`, the status-label rule, `_format_windows_path`, and whether `calldk_ui`
 * writes its result file. Qt, PIL pixel work and file I/O are replaced by inputs.
 */
module Dialog {
  import opened Wrappers
  import opened Text
  import Base64

  /** One attached image (`ImageData`): basename, base64 text of the encoded file, MIME type. */
  datatype ImageData = ImageData(filename: string, data: string, mimeType: string)

  /** The submitted result (`CalldkResult`): trimmed text and the attached images in order. */
  datatype Envelope = Envelope(text: string, images: seq<ImageData>)

  /** What `run` returns when the window closed without a submission. */
  const EmptyEnvelope: Envelope := Envelope("", [])

  /** The size gate of `_process_image_file`: 10 MiB, compared with a strict `>`. */
  const MaxImageBytes: nat := 10 * 1024 * 1024

  /** Extensions kept as they are; every other one is re-encoded as PNG. */
  const KeptFormats: set<string> := {"jpeg", "jpg", "png", "gif", "bmp", "webp"}

  /** Every MIME type the dialog can give a record (note `image/jpg` for `.jpg` files). */
  const RecordMimeTypes: set<string> := set f | f in KeptFormats :: "image/" + f

  /** PIL modes that carry transparency and are composited onto white before JPEG output. */
  const AlphaModes: set<string> := {"RGBA", "LA", "P"}

  /** What every record the dialog appends satisfies. */
  predicate WellFormedRecord(r: ImageData) {
    '/' !in r.filename && r.mimeType in RecordMimeTypes && Base64.Decode(r.data).Some?
  }

  predicate AllWellFormed(images: seq<ImageData>) {
    forall i :: 0 <= i < |images| ==> WellFormedRecord(images[i])
  }

  // ---------------------------------------------------------------------------
  // Paths (posixpath semantics)

  /** `os.path.basename(path)`. */
  function Basename(path: string): (name: string)
    ensures '/' !in name
    ensures '/' !in path ==> name == path
  {
    AfterLast(path, '/')
  }

  /** Every character of `s[lo..hi]` is a dot. */
  predicate OnlyDots(s: string, lo: int, hi: int)
    requires 0 <= lo <= hi <= |s|
    decreases hi - lo
  {
    lo == hi || (s[lo] == '.' && OnlyDots(s, lo + 1, hi))
  }

  /**
   * `os.path.splitext(path)[1]`: from the last dot of the last path component,
   * unless everything before that dot in the component is a dot as well.
   */
  function Extension(path: string): (e: string)
    ensures |e| <= |path|
    ensures e == [] || e[0] == '.'
    ensures '/' !in e
  {
    var sep := RFind(path, '/');
    var dot := RFind(path, '.');
    if dot > sep && !OnlyDots(path, sep + 1, dot) then
      assert forall j :: 0 <= j < |path| - dot ==> path[dot..][j] == path[dot + j];
      path[dot..]
    else []
  }

  /** The format `_process_image_file` derives: the extension, lower-cased, without dots, or `jpeg`. */
  function FileFormat(path: string): (f: string)
    ensures f != [] && '.' !in f
  {
    var f := RemoveChar(Lower(Extension(path)), '.');
    if f == [] then "jpeg" else f
  }

  lemma LowerKeepsDotOut(s: string)
    requires '.' !in s
    ensures '.' !in Lower(s)
  {
    assert forall i :: 0 <= i < |s| ==> Lower(s)[i] == LowerChar(s[i]) != '.';
  }

  /** A file `dir + stem + "." + ext` gets `ext`, lower-cased, as its format; no extension means `jpeg`. */
  lemma FileFormatOfName(dir: string, stem: string, ext: string)
    requires dir == [] || dir[|dir| - 1] == '/'
    requires stem != [] && stem[0] != '.' && '/' !in stem
    requires '/' !in ext && '.' !in ext
    ensures FileFormat(dir + stem + "." + ext) == if ext == [] then "jpeg" else Lower(ext)
  {
    var p := dir + stem + "." + ext;
    var dot := |dir| + |stem|;
    assert p[dot] == '.';
    assert forall j :: dot < j < |p| ==> p[j] == ext[j - dot - 1];
    RFindAt(p, '.', dot);
    if dir == [] {
      assert p == stem + "." + ext;
      assert '/' !in p;
      RFindAbsent(p, '/');
    } else {
      assert forall j :: |dir| <= j < |p| ==> p[j] != '/';
      RFindAt(p, '/', |dir| - 1);
    }
    assert p[|dir|] == stem[0];
    assert !OnlyDots(p, |dir|, dot);
    assert Extension(p) == "." + ext;
    assert Lower("." + ext) == "." + Lower(ext);
    LowerKeepsDotOut(ext);
    assert RemoveChar("." + Lower(ext), '.') == Lower(ext);
  }

  /** A basename without any dot has no extension, so its format is `jpeg`. */
  lemma FileFormatWithoutDot(path: string)
    requires '.' !in Basename(path)
    ensures FileFormat(path) == "jpeg"
  {
    var sep := RFind(path, '/');
    var name := Basename(path);
    assert name == path[sep + 1..];
    assert forall j :: sep < j < |path| ==> path[j] == name[j - sep - 1];
    assert RFind(path, '.') <= sep;
  }

  // ---------------------------------------------------------------------------
  // Encoding policy

  /** The output format and MIME type chosen for a derived file format. */
  datatype FormatChoice = FormatChoice(outputFormat: string, mimeType: string)

  function ChooseFormat(fileFormat: string): (c: FormatChoice)
    ensures c.outputFormat in KeptFormats
    ensures c.mimeType == "image/" + c.outputFormat && c.mimeType in RecordMimeTypes
    ensures fileFormat in KeptFormats ==> c.outputFormat == fileFormat
    ensures fileFormat !in KeptFormats ==> c == FormatChoice("png", "image/png")
  {
    if fileFormat in KeptFormats then FormatChoice(fileFormat, "image/" + fileFormat)
    else FormatChoice("png", "image/png")
  }

  /** How the opened image is prepared for saving. */
  datatype Conversion =
    | KeepMode               // saved in the mode PIL opened it with
    | ConvertToRgb           // `img.convert('RGB')`
    | FlattenOnWhite         // pasted onto an opaque white RGB canvas, alpha as mask
    | PaletteFlattenOnWhite  // converted to RGBA first, then flattened onto white

  /** Everything `img.save` is asked to do: conversion, resulting mode, PIL format name, JPEG quality. */
  datatype SavePlan = SavePlan(conversion: Conversion, savedMode: string, pilFormat: string, quality: Option<nat>)

  /** `output_format.lower() in ('jpg', 'jpeg')`. */
  predicate IsJpeg(outputFormat: string) {
    Lower(outputFormat) in {"jpg", "jpeg"}
  }

  function PlanSave(outputFormat: string, mode: string): (p: SavePlan)
    ensures IsJpeg(outputFormat) ==> p.pilFormat == "JPEG" && p.savedMode == "RGB" && p.quality == Some(100)
    ensures !IsJpeg(outputFormat) ==> p == SavePlan(KeepMode, mode, Upper(outputFormat), None)
    ensures (p.conversion == FlattenOnWhite || p.conversion == PaletteFlattenOnWhite)
        <==> (IsJpeg(outputFormat) && mode in AlphaModes)
    ensures p.conversion == ConvertToRgb <==> IsJpeg(outputFormat) && mode !in AlphaModes && mode != "RGB"
  {
    if IsJpeg(outputFormat) then
      if mode in AlphaModes then
        SavePlan(if mode == "P" then PaletteFlattenOnWhite else FlattenOnWhite, "RGB", "JPEG", Some(100))
      else if mode != "RGB" then
        SavePlan(ConvertToRgb, "RGB", "JPEG", Some(100))
      else
        SavePlan(KeepMode, "RGB", "JPEG", Some(100))
    else
      SavePlan(KeepMode, mode, Upper(outputFormat), None)
  }

  /** What the file system and PIL report about a chosen file; `None` where the call raises. */
  datatype FileProbe = FileProbe(size: Option<nat>, mode: Option<string>)

  /**
   * `img.save` of the file at a path under a save plan: `None` stands for it
   * raising, otherwise the bytes it wrote, which depend on that file's pixels.
   */
  type Encoder = (string, SavePlan) -> Option<seq<bv8>>

  datatype AddOutcome =
    | Added(record: ImageData)
    | TooLarge(filename: string)  // the "file too large" warning, naming the basename
    | Failed                      // the "error while processing" dialog

  /** The decision `_process_image_file` takes for one file. */
  function ProcessImage(path: string, probe: FileProbe, encoder: Encoder): (o: AddOutcome)
    ensures o.TooLarge? <==> probe.size.Some? && probe.size.value > MaxImageBytes
    ensures o.TooLarge? ==> o.filename == Basename(path)
    ensures o.Added? <==>
      && probe.size.Some? && probe.size.value <= MaxImageBytes && probe.mode.Some?
      && encoder(path, PlanSave(ChooseFormat(FileFormat(path)).outputFormat, probe.mode.value)).Some?
    ensures o.Added? ==>
      && o.record.filename == Basename(path)
      && o.record.mimeType == ChooseFormat(FileFormat(path)).mimeType
      && o.record.data == Base64.Encode(encoder(path, PlanSave(ChooseFormat(FileFormat(path)).outputFormat, probe.mode.value)).value)
  {
    match probe.size
    case None => Failed
    case Some(size) =>
      if size > MaxImageBytes then TooLarge(Basename(path))
      else
        var choice := ChooseFormat(FileFormat(path));
        match probe.mode
        case None => Failed
        case Some(mode) =>
          match encoder(path, PlanSave(choice.outputFormat, mode))
          case None => Failed
          case Some(bytes) => Added(ImageData(Basename(path), Base64.Encode(bytes), choice.mimeType))
  }

  /**
   * An attached record carries the basename, the MIME type of the format policy,
   * and base64 text that decodes back to exactly the bytes PIL saved.
   */
  lemma AddedRecordFaithful(path: string, probe: FileProbe, encoder: Encoder)
    requires ProcessImage(path, probe, encoder).Added?
    ensures probe.size.Some? && probe.size.value <= MaxImageBytes && probe.mode.Some?
    ensures var r := ProcessImage(path, probe, encoder).record;
      && r.filename == Basename(path)
      && r.mimeType == ChooseFormat(FileFormat(path)).mimeType
      && Base64.Decode(r.data) == encoder(path, PlanSave(ChooseFormat(FileFormat(path)).outputFormat, probe.mode.value))
      && WellFormedRecord(r)
  {
    var bytes := encoder(path, PlanSave(ChooseFormat(FileFormat(path)).outputFormat, probe.mode.value)).value;
    Base64.RoundTrip(bytes);
  }

  lemma AppendWellFormed(images: seq<ImageData>, r: ImageData)
    requires AllWellFormed(images) && WellFormedRecord(r)
    ensures AllWellFormed(images + [r])
  {
    assert forall i :: 0 <= i < |images| ==> (images + [r])[i] == images[i];
  }

  /** The gate is strict: a file of exactly 10 MiB that PIL reads and saves is attached. */
  lemma LimitSizeIsAccepted(path: string, mode: string, encoder: Encoder)
    requires encoder(path, PlanSave(ChooseFormat(FileFormat(path)).outputFormat, mode)).Some?
    ensures ProcessImage(path, FileProbe(Some(MaxImageBytes), Some(mode)), encoder).Added?
  {
  }

  /** The records appended for a batch of outcomes, in order. */
  function AddedRecords(outcomes: seq<AddOutcome>): (r: seq<ImageData>)
    ensures |r| <= |outcomes|
  {
    if outcomes == [] then []
    else
      var last := outcomes[|outcomes| - 1];
      AddedRecords(outcomes[..|outcomes| - 1]) + (if last.Added? then [last.record] else [])
  }

  lemma {:induction false} AddedRecordsWellFormed(outcomes: seq<AddOutcome>)
    requires forall i :: 0 <= i < |outcomes| && outcomes[i].Added? ==> WellFormedRecord(outcomes[i].record)
    ensures AllWellFormed(AddedRecords(outcomes))
  {
    if outcomes != [] {
      AddedRecordsWellFormed(outcomes[..|outcomes| - 1]);
    }
  }

  /** The outcomes of a batch of chosen files, one per file in turn. */
  function ProcessAll(files: seq<(string, FileProbe)>, encoder: Encoder): (r: seq<AddOutcome>)
    ensures |r| == |files|
    ensures forall i :: 0 <= i < |files| ==> r[i] == ProcessImage(files[i].0, files[i].1, encoder)
  {
    if files == [] then []
    else
      var last := files[|files| - 1];
      ProcessAll(files[..|files| - 1], encoder) + [ProcessImage(last.0, last.1, encoder)]
  }

  /** Deciding one more file appends its outcome. */
  lemma ProcessAllSnoc(files: seq<(string, FileProbe)>, i: nat, encoder: Encoder)
    requires i < |files|
    ensures ProcessAll(files[..i + 1], encoder) == ProcessAll(files[..i], encoder) + [ProcessImage(files[i].0, files[i].1, encoder)]
  {
    assert files[..i + 1][..i] == files[..i];
  }

  lemma AppendAssoc<T>(a: seq<T>, b: seq<T>, c: seq<T>)
    ensures (a + b) + c == a + (b + c)
  {
  }

  lemma AddedRecordsSnoc(outcomes: seq<AddOutcome>, o: AddOutcome)
    ensures AddedRecords(outcomes + [o]) == AddedRecords(outcomes) + (if o.Added? then [o.record] else [])
  {
    assert (outcomes + [o])[..|outcomes|] == outcomes;
  }

  /** Whatever a batch brings in is well formed. */
  lemma ProcessAllWellFormed(files: seq<(string, FileProbe)>, encoder: Encoder)
    ensures AllWellFormed(AddedRecords(ProcessAll(files, encoder)))
  {
    var outcomes := ProcessAll(files, encoder);
    forall i | 0 <= i < |outcomes| && outcomes[i].Added?
      ensures WellFormedRecord(outcomes[i].record)
    {
      AddedRecordFaithful(files[i].0, files[i].1, encoder);
    }
    AddedRecordsWellFormed(outcomes);
  }

  /** `list.pop(index)` guarded by `0 <= index < len(list)`. */
  function RemoveAt<T>(s: seq<T>, index: int): (r: seq<T>)
    ensures 0 <= index < |s| ==>
      && |r| == |s| - 1
      && (forall j :: 0 <= j < index ==> r[j] == s[j])
      && (forall j :: index <= j < |r| ==> r[j] == s[j + 1])
      && multiset(r) + multiset{s[index]} == multiset(s)
    ensures !(0 <= index < |s|) ==> r == s
  {
    if 0 <= index < |s| then
      assert s == s[..index] + [s[index]] + s[index + 1..];
      s[..index] + s[index + 1..]
    else
      s
  }

  // ---------------------------------------------------------------------------
  // Status label and path display

  const NoImagesLabel: string := "未选择图片"
  const CountLabelPrefix: string := "已选择 "
  const CountLabelSuffix: string := " 张图片"

  /** The text of the image status label for a given number of attached images. */
  function StatusLabel(count: nat): (shown: string)
    ensures count == 0 <==> shown == NoImagesLabel
  {
    if count == 0 then NoImagesLabel
    else
      var shown := CountLabelPrefix + Decimal(count) + CountLabelSuffix;
      assert shown[0] == '已' != NoImagesLabel[0];
      shown
  }

  /** A label for a non-zero count holds that count in decimal between the fixed words. */
  lemma StatusLabelReadsCount(count: nat)
    requires count > 0
    ensures var shown := StatusLabel(count);
      && |shown| > |CountLabelPrefix| + |CountLabelSuffix|
      && shown[..4] == CountLabelPrefix && shown[|shown| - 4..] == CountLabelSuffix
      && (forall i :: 4 <= i < |shown| - 4 ==> IsDigit(shown[i]))
      && ParseDecimal(shown[4..|shown| - 4]) == count
  {
    var shown := StatusLabel(count);
    assert shown[4..|shown| - 4] == Decimal(count);
    DecimalRoundTrip(count);
  }

  /** The label tells how many images are attached: different counts never share a label. */
  lemma StatusLabelDistinct(a: nat, b: nat)
    requires a != b
    ensures StatusLabel(a) != StatusLabel(b)
  {
    var la, lb := StatusLabel(a), StatusLabel(b);
    if a != 0 && b != 0 {
      assert Decimal(a) == la[4..|la| - 4];
      assert Decimal(b) == lb[4..|lb| - 4];
      DecimalRoundTrip(a);
      DecimalRoundTrip(b);
      assert la[4..|la| - 4] != lb[4..|lb| - 4];
    } else {
      var n := if a != 0 then a else b;
      assert StatusLabel(n)[0] == '已' && NoImagesLabel[0] == '未';
      assert la[0] != lb[0];
    }
  }

  /** `_format_windows_path`: on win32, forward slashes become backslashes and a drive letter is upper-cased. */
  function FormatWindowsPath(path: string, onWin32: bool): (r: string)
    ensures |r| == |path|
    ensures !onWin32 ==> r == path
    ensures onWin32 ==> '/' !in r
    ensures onWin32 ==> forall i :: 0 < i < |r| ==> r[i] == if path[i] == '/' then '\\' else path[i]
    ensures onWin32 && |path| >= 2 && path[1] == ':' && IsAsciiLetter(path[0]) ==> r[0] == UpperChar(path[0])
    ensures onWin32 && |path| > 0 && !(|path| >= 2 && path[1] == ':' && IsAsciiLetter(path[0])) ==>
              r[0] == if path[0] == '/' then '\\' else path[0]
  {
    if !onWin32 then path
    else
      var q := ReplaceChar(path, '/', '\\');
      if |q| >= 2 && q[1] == ':' && IsAsciiLetter(q[0]) then [UpperChar(q[0])] + q[1..] else q
  }

  lemma FormatWindowsPathIdempotent(path: string)
    ensures FormatWindowsPath(FormatWindowsPath(path, true), true) == FormatWindowsPath(path, true)
  {
    var once := FormatWindowsPath(path, true);
    var twice := FormatWindowsPath(once, true);
    if |path| >= 2 && path[1] == ':' && IsAsciiLetter(path[0]) {
      assert twice[0] == UpperChar(UpperChar(path[0]));
    }
    assert forall i :: 0 <= i < |once| ==> twice[i] == once[i];
  }

  // ---------------------------------------------------------------------------
  // The session kept by the window

  /** The envelope `run` returns: the submitted one, or the empty one when nothing was submitted. */
  function RunResult(submitted: Option<Envelope>): Envelope {
    submitted.GetOr(EmptyEnvelope)
  }

  /** Where `calldk_ui` puts the result. */
  datatype DialogOutput = WroteFile(path: string, result: Envelope) | Returned(result: Envelope)

  /**
   * `if output_file and result`: the result is a dictionary with two keys and
   * so always true, which leaves the output path alone to decide.
   */
  function CalldkUiOutput(outputFile: Option<string>, result: Envelope): (o: DialogOutput)
    ensures o.result == result
    ensures o.WroteFile? <==> outputFile.Some? && outputFile.value != ""
    ensures o.WroteFile? ==> o.path == outputFile.value
  {
    if outputFile.Some? && outputFile.value != "" then WroteFile(outputFile.value, result)
    else Returned(result)
  }

  class CalldkUI {
    const projectDirectory: string
    const prompt: string
    var selectedImages: seq<ImageData>
    var calldkResult: Option<Envelope>
    var statusLabel: string

    /** Every held record is one the dialog made; the captured envelope too. */
    ghost predicate ImagesValid()
      reads this
    {
      AllWellFormed(selectedImages)
      && (calldkResult.Some? ==> AllWellFormed(calldkResult.value.images))
    }

    ghost predicate Valid()
      reads this
    {
      ImagesValid() && statusLabel == StatusLabel(|selectedImages|)
    }

    constructor (projectDirectory: string, prompt: string)
      ensures Valid()
      ensures this.projectDirectory == projectDirectory && this.prompt == prompt
      ensures selectedImages == [] && calldkResult == None && statusLabel == NoImagesLabel
    {
      this.projectDirectory := projectDirectory;
      this.prompt := prompt;
      selectedImages := [];
      calldkResult := None;
      statusLabel := NoImagesLabel;
    }

    /** The status-label part of `_update_image_preview`. */
    method UpdateImagePreview()
      modifies this`statusLabel
      ensures statusLabel == StatusLabel(|selectedImages|)
    {
      var count := |selectedImages|;
      if count == 0 {
        statusLabel := NoImagesLabel;
      } else {
        statusLabel := CountLabelPrefix + Decimal(count) + CountLabelSuffix;
      }
    }

    /** `_process_image_file`: the decision of `ProcessImage`, then at most one append and a preview refresh. */
    method ProcessImageFile(path: string, probe: FileProbe, encoder: Encoder) returns (outcome: AddOutcome)
      requires Valid()
      modifies this
      ensures Valid()
      ensures outcome == ProcessImage(path, probe, encoder)
      ensures selectedImages == if outcome.Added? then old(selectedImages) + [outcome.record] else old(selectedImages)
      ensures calldkResult == old(calldkResult)
    {
      outcome := ProcessImage(path, probe, encoder);
      if outcome.Added? {
        AddedRecordFaithful(path, probe, encoder);
        AppendRecord(outcome.record);
      }
    }

    /** `self.selected_images.append(image_data)` followed by the preview refresh. */
    method AppendRecord(record: ImageData)
      requires Valid() && WellFormedRecord(record)
      modifies this
      ensures Valid()
      ensures selectedImages == old(selectedImages) + [record]
      ensures calldkResult == old(calldkResult)
    {
      AppendWellFormed(selectedImages, record);
      selectedImages := selectedImages + [record];
      UpdateImagePreview();
    }

    /** `_add_image`: nothing without PIL, otherwise every chosen file in turn. */
    method AddImage(pilAvailable: bool, files: seq<(string, FileProbe)>, encoder: Encoder)
      returns (outcomes: seq<AddOutcome>)
      requires Valid()
      modifies this
      ensures Valid()
      ensures !pilAvailable ==> outcomes == []
      ensures pilAvailable ==> outcomes == ProcessAll(files, encoder)
      ensures selectedImages == old(selectedImages) + AddedRecords(outcomes)
      ensures calldkResult == old(calldkResult)
    {
      outcomes := [];
      if !pilAvailable {
        return;
      }
      for i := 0 to |files|
        invariant Valid()
        invariant outcomes == ProcessAll(files[..i], encoder)
        invariant selectedImages == old(selectedImages) + AddedRecords(outcomes)
        invariant calldkResult == old(calldkResult)
      {
        var o := ProcessImageFile(files[i].0, files[i].1, encoder);
        ProcessAllSnoc(files, i, encoder);
        AddedRecordsSnoc(outcomes, o);
        AppendAssoc(old(selectedImages), AddedRecords(outcomes), if o.Added? then [o.record] else []);
        outcomes := outcomes + [o];
      }
      assert files[..|files|] == files;
    }

    /** `_clear_images`. */
    method ClearImages()
      requires Valid()
      modifies this
      ensures Valid()
      ensures selectedImages == [] && statusLabel == NoImagesLabel
      ensures calldkResult == old(calldkResult)
    {
      selectedImages := [];
      UpdateImagePreview();
    }

    /** `_remove_image`: an index outside the list changes nothing. */
    method RemoveImage(index: int)
      requires Valid()
      modifies this
      ensures Valid()
      ensures selectedImages == RemoveAt(old(selectedImages), index)
      ensures calldkResult == old(calldkResult)
    {
      if 0 <= index < |selectedImages| {
        selectedImages := RemoveAt(selectedImages, index);
        UpdateImagePreview();
      }
    }

    /**
     * `_submit_calldk`: captures the stripped draft and a copy of the list. The
     * methods above leave `calldkResult` alone, so later edits cannot reach it.
     */
    method SubmitCalldk(draft: string)
      requires Valid()
      modifies this
      ensures Valid()
      ensures calldkResult == Some(Envelope(Strip(draft), selectedImages))
      ensures selectedImages == old(selectedImages) && statusLabel == old(statusLabel)
    {
      calldkResult := Some(Envelope(Strip(draft), selectedImages));
    }

    /** `run` after the event loop has ended. */
    method Run() returns (result: Envelope)
      requires Valid()
      ensures calldkResult.None? ==> result == EmptyEnvelope
      ensures calldkResult.Some? ==> result == calldkResult.value
      ensures AllWellFormed(result.images)
    {
      if calldkResult.None? {
        result := Envelope("", []);
      } else {
        result := calldkResult.value;
      }
    }
  }
}
