/**
 * The tool-serving side (server.py): `launch_calldk_ui` runs the dialog as a
 * child process, reads its JSON result from a temporary file, removes that file
 * on every path, and turns the result into MCP content items. The child run,
 * the file system and `json.load` are replaced by a `ChildOutcome`.
 */
module Server {
  import opened Wrappers
  import opened Text
  import Base64

  /** One image entry of the parsed result file; a key that is missing is `None`. */
  datatype WireImage = WireImage(filename: Option<string>, data: Option<string>, mimeType: Option<string>)

  /** The parsed result file: `interactive_calldk`, the legacy `command_logs`, `images`. */
  datatype WireEnvelope = WireEnvelope(calldk: Option<string>, commandLogs: Option<string>, images: Option<seq<WireImage>>)

  /** The temporary output file as the parent finds it after the child exits. */
  datatype OutputFile =
    | Absent                         // `open` raises: the file no longer exists
    | Unparseable                    // `json.load` raises: empty or not JSON
    | Parsed(envelope: WireEnvelope)

  datatype ChildOutcome = ChildOutcome(exitCode: int, output: OutputFile)

  /** A tool result item: a plain string, or a fastmcp `Image(data=..., format=...)`. */
  datatype Content = Text(text: string) | Image(data: seq<bv8>, format: string)

  /** Why `launch_calldk_ui` raises instead of returning a content list. */
  datatype HandoffError =
    | SetupFailed                 // the temporary file could not be created
    | LaunchFailed(exitCode: int) // the child exited non-zero
    | OutputMissing
    | OutputUnparseable
    | FilenameMissing             // an image failed and the handler's `image_data['filename']` raised

  const UserPrefix: string := "用户call dk: "
  const LogPrefix: string := "命令日志: "
  const ImageErrorPrefix: string := "图片处理错误 ("

  /** The formats an MCP image item may carry. */
  const McpFormats: set<string> := {"jpeg", "png", "gif", "bmp", "webp"}

  /** `str(e)` for a `KeyError` on `key`. */
  function KeyErrorText(key: string): string {
    "'" + key + "'"
  }

  /** Stands for `str(e)` of the error `base64.b64decode` raises. */
  const InvalidBase64Text: string := "Invalid base64-encoded string"

  // ---------------------------------------------------------------------------
  // The combined text block

  /** `combined_text` just before its final strip. */
  function CombinedText(calldk: string, logs: string): string {
    var withText := if calldk != "" then UserPrefix + calldk + "\n\n" else "";
    if logs != "" then withText + (LogPrefix + logs) else withText
  }

  /** The one text item built from `interactive_calldk` and `command_logs`, when there is one. */
  function TextBlock(env: WireEnvelope): seq<Content> {
    var combined := Strip(CombinedText(Strip(env.calldk.GetOr("")), Strip(env.commandLogs.GetOr(""))));
    if combined != "" then [Text(combined)] else []
  }

  lemma PrefixedTrimmed(prefix: string, t: string)
    requires prefix != [] && !IsSpace(prefix[0])
    requires t != [] && Trimmed(t)
    ensures Trimmed(prefix + t)
  {
    assert (prefix + t)[|prefix + t| - 1] == t[|t| - 1];
  }

  lemma StripTextOnly(t: string)
    requires t != "" && Trimmed(t)
    ensures Strip(CombinedText(t, "")) == UserPrefix + t
  {
    var m := UserPrefix + t;
    assert m[0] == '用';
    PrefixedTrimmed(UserPrefix, t);
    assert CombinedText(t, "") == m + "\n\n";
    assert AllSpace("\n\n");
    StripAppendSpaces(m, "\n\n");
  }

  lemma StripLogsOnly(l: string)
    requires l != "" && Trimmed(l)
    ensures Strip(CombinedText("", l)) == LogPrefix + l
  {
    var m := LogPrefix + l;
    assert m[0] == '命';
    assert m[|m| - 1] == l[|l| - 1];
    assert Trimmed(m);
    assert CombinedText("", l) == m;
  }

  lemma StripBoth(t: string, l: string)
    requires t != "" && Trimmed(t) && l != "" && Trimmed(l)
    ensures Strip(CombinedText(t, l)) == UserPrefix + t + "\n\n" + LogPrefix + l
  {
    var a, b := UserPrefix + t + "\n\n", LogPrefix + l;
    assert CombinedText(t, l) == a + b;
    assert (a + b)[0] == a[0] == '用';
    assert (a + b)[|a + b| - 1] == b[|b| - 1] == l[|l| - 1];
    assert Trimmed(a + b);
    assert a + b == UserPrefix + t + "\n\n" + LogPrefix + l;
  }

  /**
   * The text block, case by case: absent exactly when both stripped fields are
   * empty, otherwise the prefixed text, the prefixed logs, or both joined by a blank line.
   * A missing `command_logs` reads as the empty string.
   */
  lemma TextBlockCases(env: WireEnvelope)
    ensures var t, l := Strip(env.calldk.GetOr("")), Strip(env.commandLogs.GetOr(""));
      && (t == "" && l == "" ==> TextBlock(env) == [])
      && (t != "" && l == "" ==> TextBlock(env) == [Text(UserPrefix + t)])
      && (t == "" && l != "" ==> TextBlock(env) == [Text(LogPrefix + l)])
      && (t != "" && l != "" ==> TextBlock(env) == [Text(UserPrefix + t + "\n\n" + LogPrefix + l)])
  {
    var t, l := Strip(env.calldk.GetOr("")), Strip(env.commandLogs.GetOr(""));
    if t != "" && l == "" {
      StripTextOnly(t);
    } else if t == "" && l != "" {
      StripLogsOnly(l);
    } else if t != "" && l != "" {
      StripBoth(t, l);
    }
  }

  // ---------------------------------------------------------------------------
  // Image items

  /** The format for the last `/`-segment of a MIME type: `jpg` becomes `jpeg`, anything unknown `png`. */
  function FormatOfSegment(segment: string): (f: string)
    ensures f in McpFormats
    ensures segment in McpFormats ==> f == segment
    ensures segment == "jpg" ==> f == "jpeg"
    ensures segment != "jpg" && segment !in McpFormats ==> f == "png"
  {
    if segment == "jpg" then "jpeg" else if segment in McpFormats then segment else "png"
  }

  /** `mime_type.split('/')[-1]`, then `FormatOfSegment`. */
  function NormalizeFormat(mimeType: string): (f: string)
    ensures f in McpFormats
  {
    FormatOfSegment(AfterLast(mimeType, '/'))
  }

  lemma NormalizeFormatOfType(prefix: string, segment: string)
    requires '/' !in segment
    ensures NormalizeFormat(prefix + "/" + segment) == FormatOfSegment(segment)
  {
    AfterLastAppend(prefix, '/', segment);
  }

  /** Normalising a normalised format changes nothing. */
  lemma NormalizeFormatIdempotent(mimeType: string)
    ensures NormalizeFormat(NormalizeFormat(mimeType)) == NormalizeFormat(mimeType)
  {
    var f := NormalizeFormat(mimeType);
    FormatHasNoSlash(f);
    assert AfterLast(f, '/') == f;
  }

  lemma FormatHasNoSlash(f: string)
    requires f in McpFormats
    ensures '/' !in f
  {
    assert f == "jpeg" || f == "png" || f == "gif" || f == "bmp" || f == "webp";
  }

  /** The body of the `try` for one entry: the item, or `str(e)` of what it raised. */
  function TryImage(img: WireImage): (r: Result<Content, string>)
    ensures r.Success? <==> img.data.Some? && Base64.Decode(img.data.value).Some? && img.mimeType.Some?
    ensures r.Success? ==> r.value == Image(Base64.Decode(img.data.value).value, NormalizeFormat(img.mimeType.value))
    ensures r.Failure? ==> r.error in {KeyErrorText("data"), InvalidBase64Text, KeyErrorText("mime_type")}
  {
    match img.data
    case None => Failure(KeyErrorText("data"))
    case Some(text) =>
      match Base64.Decode(text)
      case None => Failure(InvalidBase64Text)
      case Some(bytes) =>
        match img.mimeType
        case None => Failure(KeyErrorText("mime_type"))
        case Some(mime) => Success(Image(bytes, NormalizeFormat(mime)))
  }

  function ImageErrorText(filename: string, detail: string): string {
    ImageErrorPrefix + filename + "): " + detail
  }

  /** One pass of the image loop, `except` branch included. */
  function ImageItem(img: WireImage): (r: Result<Content, HandoffError>)
    ensures r.Failure? <==> TryImage(img).Failure? && img.filename.None?
    ensures r.Failure? ==> r.error == FilenameMissing
  {
    match TryImage(img)
    case Success(c) => Success(c)
    case Failure(detail) =>
      match img.filename
      case None => Failure(FilenameMissing)
      case Some(name) => Success(Text(ImageErrorText(name, detail)))
  }

  /**
   * Each entry gives an image carrying the decoded bytes and the normalised format,
   * or a text naming the entry's filename; only a failing entry without a filename raises.
   */
  lemma ImageItemCases(img: WireImage)
    ensures ImageItem(img).Failure? <==> TryImage(img).Failure? && img.filename.None?
    ensures ImageItem(img).Success? && ImageItem(img).value.Image? ==>
      && img.data.Some? && img.mimeType.Some?
      && Base64.Decode(img.data.value) == Some(ImageItem(img).value.data)
      && ImageItem(img).value.format == NormalizeFormat(img.mimeType.value)
    ensures ImageItem(img).Success? && ImageItem(img).value.Text? ==>
      && img.filename.Some? && TryImage(img).Failure?
      && ImageItem(img).value.text == ImageErrorText(img.filename.value, TryImage(img).error)
    ensures ImageItem(img).Success? ==>
      (ImageItem(img).value.Image? <==> img.data.Some? && Base64.Decode(img.data.value).Some? && img.mimeType.Some?)
  {
  }

  /** What each entry yields on its own, in input order. */
  function Outcomes(images: seq<WireImage>): (r: seq<Result<Content, HandoffError>>)
    ensures |r| == |images|
    ensures forall i :: 0 <= i < |images| ==> r[i] == ImageItem(images[i])
  {
    seq(|images|, i requires 0 <= i < |images| => ImageItem(images[i]))
  }

  /** The values of the first `n` outcomes, or the first failure among them: a loop that stops at the first exception. */
  function Collect<T, E>(outcomes: seq<Result<T, E>>, n: nat): Result<seq<T>, E>
    requires n <= |outcomes|
  {
    if n == 0 then Success([])
    else
      match Collect(outcomes, n - 1)
      case Failure(e) => Failure(e)
      case Success(values) =>
        match outcomes[n - 1]
        case Failure(e) => Failure(e)
        case Success(v) => Success(values + [v])
  }

  /** The items of the image loop; the first entry that raises ends it. */
  function ImageItems(images: seq<WireImage>): Result<seq<Content>, HandoffError> {
    Collect(Outcomes(images), |images|)
  }

  /** One value per outcome, in order; the collection succeeds exactly when every outcome does. */
  lemma {:induction false} CollectPerEntry<T, E>(outcomes: seq<Result<T, E>>, n: nat)
    requires n <= |outcomes|
    ensures Collect(outcomes, n).Success? <==> forall i :: 0 <= i < n ==> outcomes[i].Success?
    ensures Collect(outcomes, n).Success? ==>
      && |Collect(outcomes, n).value| == n
      && forall i :: 0 <= i < n ==> outcomes[i] == Success(Collect(outcomes, n).value[i])
  {
    if n > 0 {
      CollectPerEntry(outcomes, n - 1);
    }
  }

  /** Exactly one item per entry, the i-th from the i-th entry; the loop succeeds exactly when every entry does. */
  lemma ImageItemsPerEntry(images: seq<WireImage>)
    ensures ImageItems(images).Success? <==> forall i :: 0 <= i < |images| ==> ImageItem(images[i]).Success?
    ensures ImageItems(images).Success? ==>
      && |ImageItems(images).value| == |images|
      && forall i :: 0 <= i < |images| ==> ImageItem(images[i]) == Success(ImageItems(images).value[i])
  {
    CollectPerEntry(Outcomes(images), |images|);
  }

  /** One more successful outcome extends the collected values. */
  lemma CollectStep<T, E>(outcomes: seq<Result<T, E>>, n: nat, values: seq<T>)
    requires n < |outcomes| && Collect(outcomes, n) == Success(values) && outcomes[n].Success?
    ensures Collect(outcomes, n + 1) == Success(values + [outcomes[n].value])
  {
  }

  /** A failing outcome after a run of successes is the collection's failure. */
  lemma CollectStop<T, E>(outcomes: seq<Result<T, E>>, n: nat, values: seq<T>)
    requires n < |outcomes| && Collect(outcomes, n) == Success(values) && outcomes[n].Failure?
    ensures Collect(outcomes, n + 1) == Failure(outcomes[n].error)
  {
  }

  /** A failure among the first `k` outcomes is the failure of the whole collection. */
  lemma {:induction false} CollectFailure<T, E>(outcomes: seq<Result<T, E>>, k: nat, n: nat)
    requires k <= n <= |outcomes|
    requires Collect(outcomes, k).Failure?
    ensures Collect(outcomes, n) == Collect(outcomes, k)
  {
    if k < n {
      CollectFailure(outcomes, k, n - 1);
    }
  }

  /** One pass of the image loop after `i` entries gave `items`: the next item is appended, or its failure ends the loop. */
  lemma ImageItemsStep(images: seq<WireImage>, i: nat, items: seq<Content>)
    requires i < |images| && Collect(Outcomes(images), i) == Success(items)
    ensures ImageItem(images[i]).Failure? ==> ImageItems(images) == Failure(ImageItem(images[i]).error)
    ensures ImageItem(images[i]).Success? ==> Collect(Outcomes(images), i + 1) == Success(items + [ImageItem(images[i]).value])
  {
    var outcomes := Outcomes(images);
    if outcomes[i].Failure? {
      CollectStop(outcomes, i, items);
      CollectFailure(outcomes, i + 1, |images|);
    } else {
      CollectStep(outcomes, i, items);
    }
  }

  /** The whole content list: the text block first, then one item per image entry. */
  function ContentList(env: WireEnvelope): (r: Result<seq<Content>, HandoffError>)
    ensures r.Failure? ==> r.error == FilenameMissing
  {
    ImageItemsOnlyFilenameMissing(env.images.GetOr([]));
    match ImageItems(env.images.GetOr([]))
    case Failure(e) => Failure(e)
    case Success(items) => Success(TextBlock(env) + items)
  }

  /**
   * At most one item comes from the text and logs; every item after it
   * belongs to the image entry at the same position.
   */
  lemma ContentListShape(env: WireEnvelope)
    requires ContentList(env).Success?
    ensures var cs, images := ContentList(env).value, env.images.GetOr([]);
      && |TextBlock(env)| <= 1
      && |cs| == |TextBlock(env)| + |images|
      && forall i :: 0 <= i < |images| ==> ImageItem(images[i]) == Success(cs[|TextBlock(env)| + i])
  {
    var images := env.images.GetOr([]);
    ContentListSplit(env);
    TextBlockAtMostOne(env);
    ImageItemsPerEntry(images);
    ItemsAfterText(TextBlock(env), ImageItems(images).value, images);
  }

  /** Items that match the entries one by one still do so behind any text block. */
  lemma ItemsAfterText(tb: seq<Content>, items: seq<Content>, images: seq<WireImage>)
    requires |items| == |images|
    requires forall i :: 0 <= i < |images| ==> ImageItem(images[i]) == Success(items[i])
    ensures |tb + items| == |tb| + |images|
    ensures forall i :: 0 <= i < |images| ==> ImageItem(images[i]) == Success((tb + items)[|tb| + i])
  {
    forall i | 0 <= i < |images|
      ensures ImageItem(images[i]) == Success((tb + items)[|tb| + i])
    {
      assert (tb + items)[|tb| + i] == items[i];
    }
  }

  /** The text block, when there is one, comes before every image item. */
  lemma ContentListTextFirst(env: WireEnvelope)
    requires ContentList(env).Success?
    ensures |TextBlock(env)| <= |ContentList(env).value|
    ensures ContentList(env).value[..|TextBlock(env)|] == TextBlock(env)
  {
    ContentListSplit(env);
    var tb := TextBlock(env);
    assert (tb + ImageItems(env.images.GetOr([])).value)[..|tb|] == tb;
  }

  /** A successful content list is the text block followed by the image items. */
  lemma ContentListSplit(env: WireEnvelope)
    requires ContentList(env).Success?
    ensures ImageItems(env.images.GetOr([])).Success?
    ensures ContentList(env).value == TextBlock(env) + ImageItems(env.images.GetOr([])).value
  {
  }

  /** The text and the logs give at most one item between them. */
  lemma TextBlockAtMostOne(env: WireEnvelope)
    ensures |TextBlock(env)| <= 1
  {
  }

  /** The image loop can only raise for an entry that fails without a filename. */
  lemma ImageItemsOnlyFilenameMissing(images: seq<WireImage>)
    ensures ImageItems(images).Failure? ==> ImageItems(images).error == FilenameMissing
  {
    CollectOnlyError(Outcomes(images), |images|, FilenameMissing);
  }

  /** When every failing outcome carries the same error, so does a failed collection. */
  lemma {:induction false} CollectOnlyError<T, E>(outcomes: seq<Result<T, E>>, n: nat, e: E)
    requires n <= |outcomes|
    requires forall i :: 0 <= i < n && outcomes[i].Failure? ==> outcomes[i].error == e
    ensures Collect(outcomes, n).Failure? ==> Collect(outcomes, n).error == e
  {
    if n > 0 {
      CollectOnlyError(outcomes, n - 1, e);
    }
  }

  /** The outcome of the whole handoff once the child has exited. */
  function HandoffResult(child: ChildOutcome): (r: Result<seq<Content>, HandoffError>)
    ensures child.exitCode != 0 ==> r == Failure(LaunchFailed(child.exitCode))
    ensures r.Success? ==> child.exitCode == 0 && child.output.Parsed?
  {
    if child.exitCode != 0 then Failure(LaunchFailed(child.exitCode))
    else
      match child.output
      case Absent => Failure(OutputMissing)
      case Unparseable => Failure(OutputUnparseable)
      case Parsed(env) => ContentList(env)
  }

  /**
   * A clean exit with no readable result is an error of its own kind, never an
   * empty content list: a missing file and an unparseable one are told apart.
   */
  lemma HandoffFailures(child: ChildOutcome)
    ensures child.exitCode == 0 && child.output.Absent? ==> HandoffResult(child) == Failure(OutputMissing)
    ensures child.exitCode == 0 && child.output.Unparseable? ==> HandoffResult(child) == Failure(OutputUnparseable)
  {
  }

  /** After a clean exit with a parsed file, the handoff's answer is the content list of that file. */
  lemma HandoffOfParsed(env: WireEnvelope)
    ensures HandoffResult(ChildOutcome(0, Parsed(env))) == ContentList(env)
  {
  }

  /** One pass of the image loop: the `try` block and its `except` handler. */
  method ConvertImageEntry(imageData: WireImage) returns (r: Result<Content, HandoffError>)
    ensures r == ImageItem(imageData)
  {
    var attempt: Result<Content, string>;
    if imageData.data.None? {
      attempt := Failure(KeyErrorText("data"));
    } else {
      var imageBytes := Base64.Decode(imageData.data.value);
      if imageBytes.None? {
        attempt := Failure(InvalidBase64Text);
      } else if imageData.mimeType.None? {
        attempt := Failure(KeyErrorText("mime_type"));
      } else {
        var formatType := AfterLast(imageData.mimeType.value, '/');
        if formatType == "jpg" {
          formatType := "jpeg";
        } else if formatType !in McpFormats {
          formatType := "png";
        }
        attempt := Success(Image(imageBytes.value, formatType));
      }
    }
    if attempt.Success? {
      r := Success(attempt.value);
    } else if imageData.filename.None? {
      r := Failure(FilenameMissing);
    } else {
      r := Success(Text(ImageErrorText(imageData.filename.value, attempt.error)));
    }
  }

  /** Joining the prefixed text and the prefixed logs, each only when present. */
  method JoinText(calldkText: string, commandLogs: string) returns (combinedText: string)
    ensures combinedText == CombinedText(calldkText, commandLogs)
  {
    combinedText := "";
    if calldkText != "" {
      combinedText := combinedText + (UserPrefix + calldkText + "\n\n");
      assert combinedText == UserPrefix + calldkText + "\n\n";
    }
    if commandLogs != "" {
      combinedText := combinedText + (LogPrefix + commandLogs);
    }
  }

  /** The text half of the content list: `combined_text`, stripped, as at most one item. */
  method CombineText(env: WireEnvelope) returns (block: seq<Content>)
    ensures block == TextBlock(env)
  {
    var calldkText := Strip(env.calldk.GetOr(""));
    var commandLogs := Strip(env.commandLogs.GetOr(""));
    var combinedText := JoinText(calldkText, commandLogs);
    combinedText := Strip(combinedText);
    if combinedText != "" {
      block := [Text(combinedText)];
    } else {
      block := [];
    }
  }

  /** The image loop: one item per entry, in order, stopping at the first entry whose handler raises. */
  method ConvertImages(images: seq<WireImage>) returns (r: Result<seq<Content>, HandoffError>)
    ensures r == ImageItems(images)
  {
    var items: seq<Content> := [];
    var i := 0;
    while i < |images|
      invariant 0 <= i <= |images|
      invariant Collect(Outcomes(images), i) == Success(items)
    {
      var entry := ConvertImageEntry(images[i]);
      ImageItemsStep(images, i, items);
      if entry.Failure? {
        return Failure(entry.error);
      }
      items := items + [entry.value];
      i := i + 1;
    }
    r := Success(items);
  }

  /** The content-list part of `launch_calldk_ui`: the text block, then the image items. */
  method BuildContentList(env: WireEnvelope) returns (r: Result<seq<Content>, HandoffError>)
    ensures r == ContentList(env)
  {
    var contentList := CombineText(env);
    var images := ConvertImages(env.images.GetOr([]));
    if images.Failure? {
      return Failure(images.error);
    }
    r := Success(contentList + images.value);
  }

  /** `first_line`: the stripped text before the first newline. */
  function FirstLine(text: string): (r: string)
    ensures '\n' !in r
    ensures Trimmed(r)
    ensures '\n' !in text ==> r == Strip(text)
  {
    var head := TakeUntil(text, '\n');
    var r := Strip(head);
    StripInfix(head);
    assert forall i :: 0 <= i < |r| ==> r[i] == head[StripStart(head) + i];
    r
  }

  lemma FirstLineOfLines(first: string, rest: string)
    requires '\n' !in first
    ensures FirstLine(first + "\n" + rest) == Strip(first)
  {
    TakeUntilAppend(first, '\n', rest);
  }

  // ---------------------------------------------------------------------------
  // The launch

  /** The command line of the child: interpreter, unbuffered flag, script, then the three options. */
  function ChildArgs(python: string, script: string, projectDirectory: string, summary: string, outputFile: string): seq<string> {
    [python, "-u", script, "--project-directory", projectDirectory, "--prompt", summary, "--output-file", outputFile]
  }

  /** The value after the first occurrence of `flag`, as an option parser reads it. */
  function FlagValue(args: seq<string>, flag: string): Option<string> {
    if |args| < 2 then None
    else if args[0] == flag then Some(args[1])
    else FlagValue(args[1..], flag)
  }

  /** A flag that does not occur earlier is answered by the element right after it. */
  lemma {:induction false} FlagValueAfter(pre: seq<string>, flag: string, v: string, post: seq<string>)
    requires forall i :: 0 <= i < |pre| ==> pre[i] != flag
    ensures FlagValue(pre + [flag, v] + post, flag) == Some(v)
  {
    if pre != [] {
      assert (pre + [flag, v] + post)[1..] == pre[1..] + [flag, v] + post;
      FlagValueAfter(pre[1..], flag, v, post);
    }
  }

  /** `call_dk` hands the dialog `.` as the project directory, `call dk` as the prompt, and the temp path. */
  lemma CallDkArgs(python: string, script: string, outputFile: string)
    requires python != "" && python[0] != '-' && script != "" && script[0] != '-'
    ensures var args := ChildArgs(python, script, ".", "call dk", outputFile);
      && FlagValue(args, "--project-directory") == Some(".")
      && FlagValue(args, "--prompt") == Some("call dk")
      && FlagValue(args, "--output-file") == Some(outputFile)
  {
    var args := ChildArgs(python, script, ".", "call dk", outputFile);
    var p0, p1, p2 := [python, "-u", script], [python, "-u", script, "--project-directory", "."],
                      [python, "-u", script, "--project-directory", ".", "--prompt", "call dk"];
    assert args == p0 + ["--project-directory", "."] + args[5..];
    assert args == p1 + ["--prompt", "call dk"] + args[7..];
    assert args == p2 + ["--output-file", outputFile] + [];
    FlagValueAfter(p0, "--project-directory", ".", args[5..]);
    FlagValueAfter(p1, "--prompt", "call dk", args[7..]);
    FlagValueAfter(p2, "--output-file", outputFile, []);
  }

  /** The temporary output file of one `launch_calldk_ui` call. */
  class Handoff {
    var outputFile: string
    var tempFileExists: bool
    var childArgs: Option<seq<string>>
    var readAttempted: bool

    /** Between calls no temporary file is left behind. */
    ghost predicate Valid()
      reads this
    {
      !tempFileExists
    }

    constructor ()
      ensures Valid() && childArgs == None && !readAttempted
    {
      outputFile := "";
      tempFileExists := false;
      childArgs := None;
      readAttempted := false;
    }

    /**
     * `launch_calldk_ui`. `setupOk` says whether the temporary file could be created,
     * `tempPath` is its name, and `child` is what the child process left behind.
     */
    method LaunchCalldkUi(projectDirectory: string, summary: string, setupOk: bool, tempPath: string,
                          python: string, script: string, child: ChildOutcome)
      returns (r: Result<seq<Content>, HandoffError>)
      requires Valid()
      modifies this
      ensures Valid()
      ensures !setupOk ==> r == Failure(SetupFailed) && childArgs == None
      ensures setupOk ==> r == HandoffResult(child)
      ensures setupOk ==> childArgs == Some(ChildArgs(python, script, projectDirectory, summary, tempPath))
      ensures setupOk ==> outputFile == tempPath
      ensures readAttempted <==> setupOk && child.exitCode == 0
    {
      childArgs := None;
      readAttempted := false;
      if !setupOk {
        return Failure(SetupFailed);
      }
      outputFile := tempPath;
      tempFileExists := true;
      childArgs := Some(ChildArgs(python, script, projectDirectory, summary, outputFile));
      // the child has run; it may have removed the file
      tempFileExists := child.output != Absent;
      if child.exitCode != 0 {
        r := Failure(LaunchFailed(child.exitCode));
      } else {
        readAttempted := true;
        match child.output
        case Absent =>
          r := Failure(OutputMissing);
        case Unparseable =>
          r := Failure(OutputUnparseable);
        case Parsed(env) =>
          tempFileExists := false;
          r := BuildContentList(env);
      }
      if r.Failure? && tempFileExists {
        tempFileExists := false;
      }
    }

    /** The `call_dk` tool: the handoff with its fixed project directory and prompt. */
    method CallDk(setupOk: bool, tempPath: string, python: string, script: string, child: ChildOutcome)
      returns (r: Result<seq<Content>, HandoffError>)
      requires Valid()
      modifies this
      ensures Valid()
      ensures setupOk ==> r == HandoffResult(child)
      ensures setupOk ==> childArgs == Some(ChildArgs(python, script, ".", "call dk", tempPath))
      ensures !setupOk ==> r == Failure(SetupFailed)
    {
      r := LaunchCalldkUi(".", "call dk", setupOk, tempPath, python, script, child);
    }
  }
}
