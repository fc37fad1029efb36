/**
 * The two halves of a call put together: the dialog process writes its result
 * with `json.dump` into the temporary file the server named on its command line,
 * and the server reads that file back with `json.load` into its content list.
 */
module Handshake {
  import opened Wrappers
  import opened Text
  import Base64
  import Dialog
  import Server

  /** One image record as the server reads it back: every key is present. */
  function WireImageOf(r: Dialog.ImageData): Server.WireImage {
    Server.WireImage(Some(r.filename), Some(r.data), Some(r.mimeType))
  }

  function WireImagesOf(images: seq<Dialog.ImageData>): (w: seq<Server.WireImage>)
    ensures |w| == |images|
    ensures forall i :: 0 <= i < |images| ==> w[i] == WireImageOf(images[i])
  {
    seq(|images|, i requires 0 <= i < |images| => WireImageOf(images[i]))
  }

  /** The dialog's result as the server reads it back; the dialog never writes `command_logs`. */
  function WireOf(e: Dialog.Envelope): Server.WireEnvelope {
    Server.WireEnvelope(Some(e.text), None, Some(WireImagesOf(e.images)))
  }

  /**
   * What the server finds once a dialog started with `--output-file` exits
   * normally: the dumped result, or, when nothing was dumped, the empty
   * temporary file, which `json.load` rejects.
   */
  function ChildOutcomeOf(o: Dialog.DialogOutput): Server.ChildOutcome {
    match o
    case WroteFile(_, e) => Server.ChildOutcome(0, Server.Parsed(WireOf(e)))
    case Returned(_) => Server.ChildOutcome(0, Server.Unparseable)
  }

  /** Every MIME type the dialog writes maps to the same format on the server, `image/jpg` to `jpeg`. */
  lemma RecordFormat(f: string)
    requires f in Dialog.KeptFormats
    ensures Server.NormalizeFormat("image/" + f) == (if f == "jpg" then "jpeg" else f)
  {
    assert '/' !in f by {
      assert f == "jpeg" || f == "jpg" || f == "png" || f == "gif" || f == "bmp" || f == "webp";
    }
    Server.NormalizeFormatOfType("image", f);
    assert "image" + "/" + f == "image/" + f;
  }

  /** A well-formed record arrives as an image item with exactly the bytes the dialog encoded. */
  lemma RecordArrives(r: Dialog.ImageData)
    requires Dialog.WellFormedRecord(r)
    ensures Server.ImageItem(WireImageOf(r))
         == Success(Server.Image(Base64.Decode(r.data).value, Server.NormalizeFormat(r.mimeType)))
  {
  }

  /** A record whose data does not decode becomes a text item naming its file, not a failure of the call. */
  lemma CorruptRecordIsolated(r: Dialog.ImageData)
    requires Base64.Decode(r.data).None?
    ensures Server.ImageItem(WireImageOf(r))
         == Success(Server.Text(Server.ImageErrorText(r.filename, Server.InvalidBase64Text)))
  {
  }

  /**
   * A submitted envelope whose records are well formed always reaches the
   * server: the call succeeds, and after the text block comes one image per
   * record, in order, carrying the record's decoded bytes.
   */
  lemma SubmittedEnvelopeArrives(e: Dialog.Envelope)
    requires Dialog.AllWellFormed(e.images)
    ensures Server.ContentList(WireOf(e)).Success?
    ensures var cs, k := Server.ContentList(WireOf(e)).value, |Server.TextBlock(WireOf(e))|;
      && |cs| == k + |e.images|
      && forall i :: 0 <= i < |e.images| ==>
           cs[k + i] == Server.Image(Base64.Decode(e.images[i].data).value,
                                     Server.NormalizeFormat(e.images[i].mimeType))
  {
    var w := WireImagesOf(e.images);
    forall i | 0 <= i < |e.images|
      ensures Server.ImageItem(w[i])
           == Success(Server.Image(Base64.Decode(e.images[i].data).value, Server.NormalizeFormat(e.images[i].mimeType)))
    {
      RecordArrives(e.images[i]);
    }
    Server.ImageItemsPerEntry(w);
    Server.ContentListShape(WireOf(e));
  }

  /** With no records the content list is the text block alone. */
  lemma EmptyImagesArrive(e: Dialog.Envelope)
    requires e.images == []
    ensures Server.ContentList(WireOf(e)) == Success(Server.TextBlock(WireOf(e)))
  {
    assert WireImagesOf(e.images) == [];
    assert Server.ImageItems([]) == Success([]);
    assert Server.TextBlock(WireOf(e)) + [] == Server.TextBlock(WireOf(e));
  }

  /** The text the dialog submits is already stripped, so it arrives verbatim behind the user prefix. */
  lemma SubmittedTextArrives(e: Dialog.Envelope)
    requires Trimmed(e.text)
    ensures Server.TextBlock(WireOf(e)) == if e.text == "" then [] else [Server.Text(Server.UserPrefix + e.text)]
  {
    Server.TextBlockCases(WireOf(e));
  }

  /**
   * The whole round: a dialog given a non-empty output path writes its result,
   * and the server's answer is the content list of that result.
   */
  lemma DialogToServer(outputPath: string, submitted: Option<Dialog.Envelope>)
    requires outputPath != ""
    ensures Server.HandoffResult(ChildOutcomeOf(Dialog.CalldkUiOutput(Some(outputPath), Dialog.RunResult(submitted))))
         == Server.ContentList(WireOf(Dialog.RunResult(submitted)))
  {
    var e := Dialog.RunResult(submitted);
    var o := Dialog.CalldkUiOutput(Some(outputPath), e);
    assert o == Dialog.WroteFile(outputPath, e);
    assert ChildOutcomeOf(o) == Server.ChildOutcome(0, Server.Parsed(WireOf(e)));
    Server.HandoffOfParsed(WireOf(e));
  }

  /** A dialog closed without submitting yields an empty content list, not an error. */
  lemma AbandonedDialogIsEmpty(outputPath: string)
    requires outputPath != ""
    ensures Server.HandoffResult(ChildOutcomeOf(Dialog.CalldkUiOutput(Some(outputPath), Dialog.RunResult(None))))
         == Success([])
  {
    DialogToServer(outputPath, None);
    EmptyImagesArrive(Dialog.EmptyEnvelope);
    SubmittedTextArrives(Dialog.EmptyEnvelope);
  }

  /** A plain text submission comes back as the single prefixed text item. */
  lemma TextOnlySubmission(outputPath: string, text: string)
    requires outputPath != "" && text != "" && Trimmed(text)
    ensures Server.HandoffResult(ChildOutcomeOf(Dialog.CalldkUiOutput(Some(outputPath), Dialog.RunResult(Some(Dialog.Envelope(text, []))))))
         == Success([Server.Text(Server.UserPrefix + text)])
  {
    var e := Dialog.Envelope(text, []);
    DialogToServer(outputPath, Some(e));
    EmptyImagesArrive(e);
    SubmittedTextArrives(e);
  }

  /** Without an output path the dialog writes nothing, and the server finds its temporary file unparseable. */
  lemma NoOutputPathFails(result: Dialog.Envelope)
    ensures Server.HandoffResult(ChildOutcomeOf(Dialog.CalldkUiOutput(None, result))) == Failure(Server.OutputUnparseable)
  {
  }
}
