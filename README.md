# call-dk-mcp, modelled in Dafny

call-dk-mcp is an MCP tool server with one tool, `call_dk`. The tool opens a
desktop dialog in a child process, in which a person types a reply and attaches
images. The dialog writes its result as JSON into a temporary file, and the
server turns that file into MCP content items: one text item, then one item per
image. A separate module, used by the dialog's optimiser button, wraps a Gemini
client that rewrites a prompt.

The project models the three pieces of logic in that flow, without the toolkits
(Qt, PIL, subprocess, the Gemini client), and proves what each promises.

- `Server.dfy` (server.py) covers the handoff. The child run and the result file
  are an abstract `ChildOutcome`: an exit code, and an output file that is
  `Absent`, `Unparseable` or `Parsed(envelope)`.
  - `Server.Handoff` keeps a flag saying whether the temporary file exists, and
    its invariant says no file is left behind between calls.
  - `LaunchCalldkUi` is proved equal to the pure `HandoffResult`.
  - Below it sit the text join and the image loop. Each is a method proved
    against the function that specifies it.
  - Format normalisation is the function `NormalizeFormat`, which `ImageItem`
    calls. The loop's `ConvertImageEntry` repeats the same steps inline and is
    proved equal to `ImageItem`.
  - The child's command line is the function `ChildArgs`. The lemma
    `CallDkArgs` states what each flag on it reads.
- `Dialog.dfy` (calldk_ui.py) covers the attachment policy of
  `_process_image_file` as pure functions: the size gate, the format and MIME
  choice, and the save plan for JPEG transparency.
  - PIL's encoder is a parameter `Encoder`, which gives the bytes saved for a
    file's path under a save plan.
  - The window's state is the class `Dialog.CalldkUI`, with fields
    `selectedImages`, `calldkResult` and `statusLabel`. Its methods do what
    `_add_image`, `_process_image_file`, `_clear_images`, `_remove_image`,
    `_submit_calldk` and `run` do.
  - `CalldkUiOutput` is whether `calldk_ui` writes the file.
- `Optimizer.dfy` (prompt_optimizer.py) covers:
  - how the settings are read;
  - the rule for when a client is built;
  - the status table;
  - the order of the guards in `optimize_prompt` and the clean-up of its reply;
  - the lazily built module-wide instance, in class `OptimizerRegistry`.

  The network call is a function parameter of type `Generator`. It returns
  either the reply or the message of the exception `generate_content` raised,
  and `optimize_prompt` passes that message on as `RequestFailed`.
- `Base64.dfy` is the alphabet of section 4 of RFC 4648. The dialog encodes each
  image with it (calldk_ui.py:324) and the server decodes it (server.py:77).
  `Base64.RoundTrip` proves that decoding gives back the encoded bytes.
- `Handshake.dfy` joins the two processes. A record the dialog made arrives at
  the server as an image carrying the same bytes. A dialog given an output path
  always leads to the content list of what it returned.
- `Text.dfy` holds the Python `str` operations the code uses; `Wrappers.dfy`
  holds `Option` and `Result`.

Where the documented behaviour and the code differ, the model
follows the code:

- the dialog gives a `.jpg` file the MIME type `image/jpg`, not one of the five
  MCP types. The server still ends up with `jpeg`, and `Handshake.RecordFormat`
  proves so;
- only the PIL modes `RGBA`, `LA` and `P` are composited onto white for JPEG
  output. Other modes with alpha (`PA`, `La`, `RGBa`) go through
  `convert('RGB')`;
- an image entry that fails and has no `filename` key makes the whole handoff
  fail (`FilenameMissing`), because the `except` handler itself reads
  `image_data['filename']`. Failures are isolated per image only when the
  filename is present.

## Model

| member | source | states |
|---|---|---|
| Server.TextBlockCases | server.py:59-70 | the text block is empty exactly when both stripped fields are empty; otherwise it is the prefixed text, the prefixed logs, or both joined by a blank line; a missing `command_logs` reads as `''` |
| Server.TextBlockAtMostOne | server.py:63-70 | the text and the logs give at most one item |
| Server.JoinText | server.py:63-67 | the two `+=` steps build the combined text of the two prefixed parts, each only when non-empty |
| Server.CombineText | server.py:59-70 | stripping both fields, joining, stripping again and appending when non-empty gives exactly the text block |
| Server.FormatOfSegment | server.py:83-86 | the format is always one of jpeg, png, gif, bmp, webp; `jpg` becomes `jpeg`, a segment already in that set is kept, and every other segment becomes `png` |
| Server.NormalizeFormat | server.py:80-86 | every MIME type maps into the five MCP formats |
| Server.NormalizeFormatOfType | server.py:80 | only the segment after the last `/` decides the format |
| Server.NormalizeFormatIdempotent | server.py:80-86 | normalising a normalised format changes nothing |
| Server.TryImage | server.py:75-90 | the `try` block gives an image exactly when the data is present and decodes and the MIME type is present, with the decoded bytes and the normalised format; otherwise its error is the missing `data` key, the invalid base64 or the missing `mime_type` key |
| Server.ImageItem | server.py:75-93 | an entry raises out of the loop exactly when the `try` block fails and the entry has no `filename`, and then the error is `FilenameMissing` |
| Server.ImageItemCases | server.py:74-93 | an entry yields an image exactly when its data is present and decodes and its MIME type is present, with the decoded bytes and the normalised format; otherwise a text naming its filename and the error; it raises only when it fails without a filename |
| Server.ConvertImageEntry | server.py:75-93 | one pass of the `try`/`except` gives the item or the error of `ImageItem` |
| Server.ImageItemsPerEntry | server.py:73-93 | the image loop succeeds exactly when every entry does, and then gives exactly one item per entry, the i-th from the i-th entry |
| Server.ConvertImages | server.py:73-93 | the loop that appends one item per entry and stops at the first entry that raises computes `ImageItems` |
| Server.ContentList | server.py:56-95 | building the content list can only fail with `FilenameMissing` |
| Server.ImageItemsOnlyFilenameMissing | server.py:74-93 | the only exception the image loop lets through is the `KeyError` of the handler reading a missing `filename` |
| Server.ContentListSplit | server.py:56-95 | a successful content list is the text block followed by the items of a successful image loop |
| Server.ContentListShape | server.py:56-95 | a successful content list has at most one text item and then, in input order, exactly the item of each image entry, so its length is that count plus the number of entries |
| Server.ContentListTextFirst | server.py:56-95 | the text block is the prefix of the content list |
| Server.BuildContentList | server.py:56-95 | the text half followed by the image half is the content list, or the error of the first entry that raises |
| Server.HandoffResult | server.py:47-53 | a nonzero exit fails with that exit code; success needs exit code 0 and a parsed file |
| Server.HandoffOfParsed | server.py:47-95 | after a clean exit with a parsed file, the answer is the content list of that file |
| Server.HandoffFailures | server.py:47-52 | a clean exit with an absent output file fails as a missing result and one with an unparseable file as an unparseable result; neither becomes an empty content list |
| Server.Handoff.LaunchCalldkUi | server.py:17-100 | the result is `HandoffResult` of the child outcome, or `SetupFailed` when the temporary file cannot be made; the child gets the command line of `ChildArgs`; the file is read only after a clean exit; no temporary file survives any path |
| Server.Handoff.CallDk | server.py:105-108 | the tool is the handoff with project directory `.` and prompt `call dk` |
| Server.CallDkArgs | server.py:30-37 | on the child's command line, `--project-directory` reads `.`, `--prompt` reads `call dk` and `--output-file` reads the temporary path |
| Server.FirstLine | server.py:102-103 | the result holds no newline, is stripped, and is the stripped text when there is no newline |
| Server.FirstLineOfLines | server.py:102-103 | for a text with a newline, the result is the stripped part before the first newline |
| Base64.Encode | calldk_ui.py:324 | the encoding has four characters for every started group of three bytes |
| Base64.DecodeQuad | server.py:77 | a full group of four characters decodes to three bytes |
| Base64.DecodeFinal | server.py:77 | the last group decodes to one to three bytes, by its padding |
| Base64.Decode | server.py:77 | a decoded text of n characters gives between (3n-8)/4 and 3n/4 bytes |
| Base64.SextetRoundTrip | server.py:77 | each of the 64 alphabet characters decodes to the value it encodes |
| Base64.RoundTrip | server.py:77 | decoding the encoding of any byte sequence gives back that sequence |
| Dialog.Basename | calldk_ui.py:328 | the record's filename holds no `/`, and a path without `/` is its own basename |
| Dialog.Extension | calldk_ui.py:290 | the extension is no longer than the path, holds no `/`, and is empty or starts with a dot |
| Dialog.FileFormat | calldk_ui.py:290-292 | the derived format is never empty and holds no dot |
| Dialog.FileFormatOfName | calldk_ui.py:290-292 | for `dir/stem.ext`, the format is `ext` lower-cased, or `jpeg` when `ext` is empty |
| Dialog.FileFormatWithoutDot | calldk_ui.py:290-292 | a basename without a dot gives the format `jpeg` |
| Dialog.ChooseFormat | calldk_ui.py:297-303 | a kept format is saved as itself with MIME type `image/` plus the format (so `.jpg` gives `image/jpg`); every other format becomes `png` with `image/png` |
| Dialog.PlanSave | calldk_ui.py:309-322 | JPEG output is saved as RGB at quality 100; it is composited onto white exactly when the mode is RGBA, LA or P, converted exactly when the mode is some other non-RGB mode; non-JPEG output keeps the mode and saves under the upper-cased format name |
| Dialog.ProcessImage | calldk_ui.py:282-337 | a file is refused as too large exactly when its size is known and over the limit, naming its basename; it is attached exactly when it is within the limit, PIL opens it and the save plan of its format encodes, and the record then has the basename, the format's MIME type and the base64 of the saved bytes; every other case is the error dialog |
| Dialog.LimitSizeIsAccepted | calldk_ui.py:284-287 | a file of exactly 10485760 bytes that PIL opens and saves is attached |
| Dialog.AddedRecordFaithful | calldk_ui.py:324-331 | an attached record has the basename, the MIME type of the format policy, and data that decodes to exactly the bytes PIL saved |
| Dialog.ProcessAll | calldk_ui.py:277-278 | a batch gives one outcome per chosen file, the i-th being the decision for the i-th file |
| Dialog.ProcessAllWellFormed | calldk_ui.py:277-278 | every record a batch brings in is well formed |
| Dialog.RemoveAt | calldk_ui.py:408-409 | an index in range removes exactly that element and keeps the others in order (the rest is a permutation minus that element); any other index changes nothing |
| Dialog.StatusLabel | calldk_ui.py:400-404 | the label reads `未选择图片` exactly when no image is attached |
| Dialog.StatusLabelReadsCount | calldk_ui.py:400-404 | for a non-zero count the label is `已选择 `, then only decimal digits that read back as the count, then ` 张图片` |
| Dialog.StatusLabelDistinct | calldk_ui.py:400-404 | different image counts never show the same status label |
| Dialog.FormatWindowsPath | calldk_ui.py:163-170 | off win32 the path is unchanged; on win32 the length is kept, no `/` remains, each `/` becomes `\`, and the first character is upper-cased when a letter is followed by `:` |
| Dialog.FormatWindowsPathIdempotent | calldk_ui.py:163-170 | formatting a formatted path changes nothing |
| Dialog.CalldkUiOutput | calldk_ui.py:455-463 | the result is written to the file exactly when a non-empty output path is given, whatever the result holds, and is returned otherwise |
| Dialog.CalldkUI.constructor | calldk_ui.py:125-133 | a new window holds no images, no result and the label for no images |
| Dialog.CalldkUI.UpdateImagePreview | calldk_ui.py:399-404 | the status label is that of the current image count |
| Dialog.CalldkUI.ProcessImageFile | calldk_ui.py:280-337 | the outcome is the policy decision for the file; exactly one record is appended at the end when it is attached, and the list is unchanged otherwise; the submitted result is untouched |
| Dialog.CalldkUI.AppendRecord | calldk_ui.py:333-334 | the record goes at the end of the list and the label follows the new count |
| Dialog.CalldkUI.AddImage | calldk_ui.py:261-278 | without PIL nothing happens; otherwise the outcomes are those of every chosen file in turn, and the list grows by exactly the attached records, in order |
| Dialog.CalldkUI.ClearImages | calldk_ui.py:339-342 | the list is empty and the label says no images |
| Dialog.CalldkUI.RemoveImage | calldk_ui.py:406-410 | the list becomes `RemoveAt` of the old list at the index |
| Dialog.CalldkUI.SubmitCalldk | calldk_ui.py:412-417 | the result is the stripped draft with the current list; the list and label stay as they were |
| Dialog.CalldkUI.Run | calldk_ui.py:429-439 | without a submission the result is the empty envelope, otherwise the submitted one; every record in it is well formed |
| Optimizer.IncludeThoughtsIgnoresCase | prompt_optimizer.py:33 | the flag is on exactly for `true` in any case; it ignores ASCII case, and it is off for the default `false` |
| Optimizer.StatusFor | prompt_optimizer.py:60-69 | the status is one of the four messages, and the ready message needs the library, a configured key and a client |
| Optimizer.PromptOptimizer.StatusMessage | prompt_optimizer.py:60-69 | an optimizer's status is ready exactly when it has the library, a configured key and a client, and names the missing library exactly when the library is absent |
| Optimizer.StatusIdentifiesCheck | prompt_optimizer.py:60-69 | each of the four messages appears exactly when the checks before it pass and its own fails, in the order library, key, client |
| Optimizer.AvailableIffReady | prompt_optimizer.py:56-69 | when a client exists only with the library and a configured key, being available is the same as the ready status |
| Optimizer.ResponseText | prompt_optimizer.py:109 | the reply text is stripped, and empty when the response or its text is missing |
| Optimizer.PromptOptimizer.constructor | prompt_optimizer.py:21-40 | the settings are read from the environment with their defaults, and a client exists exactly when the library is there, the key is configured and building it succeeds |
| Optimizer.PromptOptimizer.InitializeClient | prompt_optimizer.py:42-54 | the client is set, with the configured key, only past both guards and only when building it succeeds; otherwise it is untouched |
| Optimizer.PromptOptimizer.IsAvailable | prompt_optimizer.py:56-58 | under the class invariant, available exactly when the status is the ready message |
| Optimizer.PromptOptimizer.OptimizePrompt | prompt_optimizer.py:71-109 | blank input fails with `EmptyInput` before availability is looked at; an unavailable optimizer fails with its status message; otherwise a request that raises fails with `RequestFailed` and its message, and a reply gives its stripped text; the request asks for `请优化这个提示词：` plus the stripped prompt |
| Optimizer.OptimizerRegistry.GetOptimizer | prompt_optimizer.py:112-119 | the first call builds the optimizer from the library flag and the environment, with a client exactly when the library is there, the key is configured and building succeeds; later calls return that same object, and at most one is ever built |
| Optimizer.OptimizerRegistry.OptimizeText | prompt_optimizer.py:121-132 | an instance exists afterwards; an existing one is kept and none is built, otherwise exactly one is built from the library flag, the environment and whether the client builds, as the constructor does; blank input fails with `EmptyInput`; an unavailable instance fails with its status; otherwise the result is that instance's reply, or `RequestFailed` when the request raises |
| Optimizer.OptimizerRegistry.IsOptimizerAvailable | prompt_optimizer.py:134-137 | an instance exists afterwards; an existing one is kept and none is built, otherwise exactly one is built from the library flag, the environment and whether the client builds, as the constructor does; the answer is that instance's availability, which is its ready status |
| Optimizer.OptimizerRegistry.GetOptimizerStatus | prompt_optimizer.py:139-142 | an instance exists afterwards; an existing one is kept and none is built, otherwise exactly one is built from the library flag, the environment and whether the client builds, as the constructor does; the answer is that instance's status, one of the four messages |
| Handshake.RecordFormat | server.py:80-86 | every MIME type the dialog writes normalises to its own format on the server, `image/jpg` to `jpeg` |
| Handshake.RecordArrives | server.py:75-90 | a record the dialog made becomes an image item with exactly the decoded bytes |
| Handshake.CorruptRecordIsolated | server.py:91-93 | a record whose data does not decode becomes a text item naming its file, not a failure of the call |
| Handshake.SubmittedEnvelopeArrives | server.py:73-93 | a submitted envelope of well-formed records always gives a content list, whose image part is one image per record, in order, with that record's bytes |
| Handshake.EmptyImagesArrive | server.py:73-95 | with no records the content list is the text block alone |
| Handshake.SubmittedTextArrives | server.py:59-70 | stripped dialog text arrives unchanged behind the user prefix, or not at all when empty |
| Handshake.DialogToServer | calldk_ui.py:455-461 | a dialog given a non-empty output path leads the server to the content list of what `run` returned |
| Handshake.AbandonedDialogIsEmpty | calldk_ui.py:433-437 | a dialog closed without submitting gives an empty content list, not an error |
| Handshake.TextOnlySubmission | server.py:59-70 | a text-only submission comes back as the single prefixed text item |
| Handshake.NoOutputPathFails | calldk_ui.py:455-463 | without an output path nothing is written, and the server reports its file unparseable |
| Text.StripAllSpace | server.py:69 | `combined_text.strip()` is empty exactly when the text is all whitespace |
| Text.DecimalRoundTrip | calldk_ui.py:404 | the count shown in the label reads back as the count |

## Left out

- Qt and the rest of the UI: widgets, layouts, palette, QSettings geometry, the Ctrl+Enter handler, `set_dark_title_bar`, thumbnails and message boxes. They are presentation or foreign calls. A message box is an `AddOutcome` value.
- PIL pixel work: opening an image and compositing and encoding pixels. `FileProbe` stands for what PIL and `os.path.getsize` report. `Encoder` stands for the bytes saved for each file under its plan. Only the conversion decision (`SavePlan`) is modelled.
- Processes and files: `subprocess.run`, `tempfile`, `open`, `unlink`, `os.makedirs` and `json.load`/`json.dump` are replaced by `ChildOutcome`, `OutputFile` and the `tempFileExists` flag.
- Server.Handoff.LaunchCalldkUi: it is written as one method over smaller methods (`BuildContentList`, `CombineText`, `ConvertImages`, `ConvertImageEntry`, `JoinText`) rather than one long body.
- JSON values of the wrong type are not modelled: a result that is not a dictionary, fields that are not strings, or an `images` value that is not a list.
- Base64.Decode: it is the canonical decoder (whole groups of four, padding only at the end, alphabet only). It is not CPython's lenient `b64decode`, which drops characters outside the alphabet and stops at the first complete padding. Decoding what `b64encode` produced is the same under both.
- Server.TryImage: the message of a base64 error is the fixed text `InvalidBase64Text`, not the exact `binascii.Error` message.
- Text.Lower: `str.lower()`, `str.upper()` and `str.isalpha()` are modelled for ASCII letters only.
- Dialog.Extension: paths follow `posixpath`, as on Linux and macOS. Windows drive and backslash handling is not modelled.
- Optimizer.PromptOptimizer.constructor: the float and integer settings (`GEMINI_TEMPERATURE`, `GEMINI_TOP_P`, `GEMINI_MAX_TOKENS`, `GEMINI_THINKING_BUDGET`) are not modelled. Their parsing is foreign and may raise.
- The `google.genai` import, the client object and the network request are parameters: `genaiAvailable`, `clientBuilds` and `generate` (a `Generator`, whose failure stands for the exception the request raises). The `.env` loading is the `Environment` map.
- `get_project_settings_group` is not part of this model: it depends on MD5 and nothing calls it.
- The `__main__` blocks of server.py, calldk_ui.py and prompt_optimizer.py (argparse, printing, `mcp.run`) are not modelled.
- `closeEvent` only saves window geometry, so it is not modelled.
