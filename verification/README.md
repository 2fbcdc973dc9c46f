# Computer-use tool of the omnitool agent, modelled in Dafny

The omnitool agent drives a desktop through one tool, `ComputerTool`. An
agent request names an action (`key`, `type`, `mouse_move`, `left_click`,
`left_click_drag`, `right_click`, `middle_click`, `double_click`,
`screenshot`, `cursor_position`, `hover`, `wait`, `scroll_up`,
`scroll_down`). It may carry a `text` and a `coordinate`. The tool checks
the parameters the action accepts and calls the automation library
(pyautogui). It answers with text, a screenshot, or both, or it raises a
`ToolError`.

This project models:

- the dispatcher `ComputerTool.__call__`;
- the key-name translation table and the press/release order of key chords;
- the coordinate-scaling seam `scale_coordinates`;
- the capability descriptor `options`;
- the `chunks` helper;
- the pure part of `get_screenshot`: the red cursor marker drawn on the grab,
  the resize rule, the file name built from a fresh UUID, and the wrapping of
  any failure.

A call is a pure function. Its inputs are the tool, the request, and what the
host reports: the cursor position and the screen. It returns the ordered
trace of device calls it makes (`Device.Event`), together with its result or
the exception it raises. Python argument values are modelled as follows:

- A non-string `text` is known by its printed form.
- A `coordinate` is either an indexable value with its items (noting whether
  it is a list or tuple), or a value that cannot be indexed.

Modules, one per file:

- `Wrappers` (`wrappers.dfy`): `Option` and `Result`.
- `ToolBase` (`base.dfy`): the two ways a call fails. One is a `ToolError`
  with a message. The other is a Python exception the tool does not catch.
- `Device` (`device.dfy`): the automation-library calls, as trace events.
- `Strings` (`strings.dfy`): Python's `str.strip`, `str.lower`,
  `str.split`, `str.join` and integer formatting. Split, join and
  formatting come with their inverses; strip and lower-case come with their
  shape and fixed-point facts.
- `Scaling` (`scaling.dfy`): `scale_coordinates`.
- `Keys` (`keys.dfy`): `key_conversion` and the chord of the `key` action.
- `ScreenCapture` (`screen_capture.dfy`): `get_screenshot`.
- `Computer` (`computer.dfy`): the dispatcher, one function per action group
  of `__call__`, plus `screenshot` and `options`.
- `ComputerContract` (`computer_contract.dfy`): what holds across all
  actions, stated against an independent table of per-action parameter rules.
- `Reports` (`reports.dfy`): parsers that read positions back out of the
  text reports.
- `Chunking` (`chunks.dfy`): `chunks`.

Where the code and the documented design disagree, the model follows the code:

- The design's parameter table says `screenshot` and `cursor_position` forbid
  a coordinate. The code ignores one.
- The table says `scroll_up`, `scroll_down` and `wait` forbid both
  parameters. The code ignores both.
- The design says a given coordinate is always checked to be a pair of
  integers. The click family and `hover` never check it. With scaling on, the
  tool indexes the first two items: any value with at least two items is
  accepted, and the items go to the move whatever their type. With scaling
  off, the tool unpacks the value into two names, so any length but two
  raises. As a result, whether the tool scales changes the outcome for such
  coordinates (`ComputerContract.ScalingDecidesLongCoordinates`), even though
  both scaling directions are the identity.
- The design itself names one known non-atomicity: a click, scroll or
  `type` whose final screenshot fails has already acted on the device. The
  model proves that this is the only way a call can fail after touching the
  device (`ComputerContract.FailureLeavesNothingButCapture`), under the
  assumptions stated for that member under "Left out".

## Model

| member | source | states |
|---|---|---|
| Computer.ParseAction | omnitool/gradio/tools/computer.py:19-34 | an action string names an action exactly when it is that action's wire name: the parse is the inverse of `ActionName` |
| Computer.Call | omnitool/gradio/tools/computer.py:102-232 | an action string outside the fourteen names raises `Invalid action: {action}` before any device call; any device call means the action was known |
| Computer.MoveOrDrag | omnitool/gradio/tools/computer.py:113-136 | in this order: a missing coordinate is refused, then any text, then a coordinate that is not a list or tuple of length two, then one whose items are not both integers, each with its message and no device call; device calls happen exactly when all checks pass; then `mouse_move` makes one move to the coordinate and reports it, and `left_click_drag` makes one half-second drag and reports where the cursor was |
| Computer.Keyboard | omnitool/gradio/tools/computer.py:139-166 | in this order: missing text is refused, then any coordinate, then non-string text; device calls happen exactly when all checks pass; `key` performs the chord of the text and reports it; `type` clicks, writes the text at 12 ms per character, presses enter, then captures, and returns the text with the screenshot |
| Computer.MoveFirst | omnitool/gradio/tools/computer.py:181-191 | only the click family and `hover` move first, and only when given a coordinate; a coordinate that cannot be indexed raises TypeError; when scaling, fewer than two items raise IndexError; when not scaling, any length but two raises ValueError; otherwise the move goes to the first two items |
| Computer.ClickOrQuery | omnitool/gradio/tools/computer.py:168-215 | text is refused; `cursor_position` reports `X={x},Y={y}` with no device call and no image; `screenshot` is just the capture; the click family and `hover` raise the move's exception with no device call, or move, press their button (or pause), and capture with `Performed {action}` |
| Computer.ScrollBy | omnitool/gradio/tools/computer.py:218-225 | the wheel turns +100 for up and -100 for down, then the capture follows with `Performed {action}` |
| Computer.WaitBriefly | omnitool/gradio/tools/computer.py:228-230 | one pause of one second, then `Performed wait` without an image |
| Computer.TakeScreenshot | omnitool/gradio/tools/computer.py:234-238 | the earlier device calls stay first; then comes the capture attempt; on success a 0.7 s settle follows, and the result carries the shot saved under the UUID's name at the screen's own size; on failure the capture's `ToolError` is raised after the attempt |
| Computer.Options | omnitool/gradio/tools/computer.py:70-79 | the descriptor reports the display's raw width and height and the display number |
| ComputerContract.RefusedIffNotAdmitted | omnitool/gradio/tools/computer.py:112-179 | a call raises a `ToolError` without touching the device exactly when the action is unknown or the request breaks that action's parameter rule (required, forbidden, optional or ignored text and coordinate) |
| ComputerContract.DeviceUntouchedUnlessAdmitted | omnitool/gradio/tools/computer.py:112-179 | the device is touched only for a known action whose request meets its parameter rules |
| ComputerContract.InvalidActionIffUnknown | omnitool/gradio/tools/computer.py:232 | `Invalid action: {action}` is raised for exactly the unknown action strings: no message a known action raises can equal it |
| ComputerContract.ImageIffCaptured | omnitool/gradio/tools/computer.py:160-225 | a result carries a screenshot exactly when all of these hold: the action is `type`, a click, `hover`, `screenshot` or a scroll; its request is admitted; its coordinate can be taken apart; the capture does not fail |
| ComputerContract.ImageIsFreshCapture | omnitool/gradio/tools/computer.py:234-238 | any screenshot returned was captured last, is followed only by the settle pause, and is saved under the host's fresh UUID |
| ComputerContract.ArtifactsDistinct | omnitool/gradio/tools/screen_capture.py:14 | screenshots returned by calls with different UUIDs are saved under different paths |
| ComputerContract.FailureLeavesNothingButCapture | omnitool/gradio/tools/computer.py:212-215 | a call that raises after touching the device failed in its final capture, with the capture's message, and its earlier device calls stand |
| ComputerContract.RunRefuses | omnitool/gradio/tools/computer.py:112-230 | every known action is refused exactly when its request breaks its parameter rules, and never raises the unknown-action error |
| ComputerContract.RunCaptures | omnitool/gradio/tools/computer.py:112-230 | every known action returns an image exactly when one is expected, and ends in the capture whenever it returns one or fails after acting |
| ComputerContract.PointerRefuses | omnitool/gradio/tools/computer.py:113-121 | the pointer-motion checks refuse by the rule table, with messages that cannot be the unknown-action message |
| ComputerContract.PointerCaptures | omnitool/gradio/tools/computer.py:130-136 | pointer motion never returns an image |
| ComputerContract.KeyRefuses | omnitool/gradio/tools/computer.py:139-158 | `key` is refused exactly when its text is missing or not a string, or it has a coordinate; its messages cannot be the unknown-action message |
| ComputerContract.TypeRefuses | omnitool/gradio/tools/computer.py:139-166 | `type` is refused exactly when its text is missing or not a string, or it has a coordinate; its messages cannot be the unknown-action message |
| ComputerContract.KeyCaptures | omnitool/gradio/tools/computer.py:147-158 | `key` never returns an image and never fails after acting |
| ComputerContract.TypeCaptures | omnitool/gradio/tools/computer.py:160-166 | `type` returns an image exactly when its request is admitted and the capture succeeds |
| ComputerContract.ButtonRefuses | omnitool/gradio/tools/computer.py:181-215 | the click family and `hover` without text are never refused |
| ComputerContract.ButtonCaptures | omnitool/gradio/tools/computer.py:181-215 | the click family and `hover` return an image exactly when their coordinate can be taken apart and the capture succeeds |
| ComputerContract.ScreenshotConforms | omnitool/gradio/tools/computer.py:193-194 | `screenshot` without text is never refused, whatever its coordinate, and returns an image exactly when the capture succeeds |
| ComputerContract.CursorConforms | omnitool/gradio/tools/computer.py:195-199 | `cursor_position` without text is never refused and never returns an image |
| ComputerContract.TextRefusedConforms | omnitool/gradio/tools/computer.py:178-179 | the click family and the queries refuse any text before any device call |
| ComputerContract.ScrollRefuses | omnitool/gradio/tools/computer.py:218-225 | scrolls are never refused, whatever text or coordinate they carry |
| ComputerContract.ScrollCaptures | omnitool/gradio/tools/computer.py:218-225 | scrolls return an image exactly when the capture succeeds |
| ComputerContract.WaitConforms | omnitool/gradio/tools/computer.py:228-230 | `wait` is never refused and never returns an image |
| ComputerContract.CaptureEnds | omnitool/gradio/tools/computer.py:234-238 | after any device calls, the screenshot step either returns the fresh image as the last call but the settle, or raises the capture failure, whose message starts with `F`, right after the attempt |
| ComputerContract.ScalingIrrelevantForPairs | omnitool/gradio/tools/computer.py:123-128 | for a coordinate that is absent, cannot be indexed, or has exactly two items, a scaling tool and a non-scaling tool make the same call |
| ComputerContract.ScalingDecidesLongCoordinates | omnitool/gradio/tools/computer.py:182-188 | a `left_click` on a three-item coordinate moves to its first two items and clicks when the tool scales, and raises ValueError with no device call when it does not |
| ComputerContract.OptionsReportRawSize | omnitool/gradio/tools/computer.py:84-93 | a fresh tool reports the display's size and no display number, whether or not it scales |
| ComputerContract.LeftClickExample | omnitool/gradio/tools/computer.py:182-215 | `left_click` at (50, 50) moves there, clicks, captures, settles, and returns `Performed left_click` with an image |
| ComputerContract.TypeExample | omnitool/gradio/tools/computer.py:160-166 | `type` with `hello` clicks, writes `hello` at 12 ms per character, presses enter, captures, settles, and returns `hello` with an image |
| ComputerContract.BogusActionExample | omnitool/gradio/tools/computer.py:232 | `bogus_action` is refused with `Invalid action: bogus_action` and no device call |
| ComputerContract.CursorPositionExample | omnitool/gradio/tools/computer.py:195-199 | `cursor_position` reports the host's cursor as `X={x},Y={y}` with no device call, with or without a coordinate |
| ComputerContract.WaitExample | omnitool/gradio/tools/computer.py:228-230 | `wait` pauses one second and reports `Performed wait`, whatever text or coordinate it is given |
| Scaling.ScaleCoordinates | omnitool/gradio/tools/computer.py:240-247 | with scaling enabled or not, in either direction, the pair comes back unchanged |
| Scaling.ScaleRoundTrip | omnitool/gradio/tools/computer.py:240-247 | converting API to device space and back, or device to API space and back, returns the original point |
| Keys.TableShape | omnitool/gradio/tools/computer.py:97-100 | every `key_conversion` key starts with a capital; every value is lower-case and carries no surrounding whitespace |
| Keys.KeyNameLookup | omnitool/gradio/tools/computer.py:151-152 | a token whose stripped form is a table key becomes that key's value; any other token is only stripped and lower-cased; either way the result has no surrounding whitespace and no capital |
| Keys.KeyNameIdempotent | omnitool/gradio/tools/computer.py:151-152 | translating an already translated key name changes nothing |
| Keys.KeyNameTranslatesExactSpelling | omnitool/gradio/tools/computer.py:151-152 | `Super_L` becomes `win` |
| Keys.KeyNameStripsFirst | omnitool/gradio/tools/computer.py:151-152 | ` Escape ` becomes `esc`: the token is stripped before the lookup |
| Keys.KeyNameCaseSensitive | omnitool/gradio/tools/computer.py:151-152 | `super_l` stays `super_l`: the lookup is case-sensitive |
| Keys.KeyNameUpperCaseNotTranslated | omnitool/gradio/tools/computer.py:151-152 | `ESCAPE` becomes `escape`: only lower-cased, not translated |
| Keys.Reverse | omnitool/gradio/tools/computer.py:154 | the reversal, built by moving each first element last, keeps the length, and its element `i` is element `n-1-i` of the original |
| Keys.ReverseMultiset | omnitool/gradio/tools/computer.py:154 | the reversal holds the same keys, each as often |
| Keys.PressAll | omnitool/gradio/tools/computer.py:150-153 | one key-down per token, in token order, each for that token's translated name |
| Keys.ReleaseAll | omnitool/gradio/tools/computer.py:154-157 | one key-up per token, in the order given, each for that token's translated name |
| Keys.Chord | omnitool/gradio/tools/computer.py:149-157 | the chord is twice as long as its token list: token `i` is pressed at step `i`, and released at the mirrored step `2n-1-i` |
| Keys.ChordTrace | omnitool/gradio/tools/computer.py:149-157 | every `key` request presses and releases at least one key, since splitting never yields an empty list |
| Keys.ChordKeys | omnitool/gradio/tools/computer.py:149-157 | a chord presses the tokens' translated names in token order and releases the reversed tokens' names |
| Keys.KeyNamesOfReverse | omnitool/gradio/tools/computer.py:154-156 | translating the reversed tokens gives the reversed list of translated names |
| Keys.ChordReleasesWhatItPressed | omnitool/gradio/tools/computer.py:149-157 | the keys released are the keys pressed, in reverse order and as often, one per token |
| Keys.TwoKeyChord | omnitool/gradio/tools/computer.py:149-157 | a two-key chord is first down, second down, second up, first up |
| Keys.SuperRChord | omnitool/gradio/tools/computer.py:147-158 | `Super_L+r` holds the Windows key while `r` is pressed and released |
| Keys.SuperRTokens | omnitool/gradio/tools/computer.py:149 | `Super_L+r` splits into `Super_L` and `r` |
| Keys.KeyNameOfLetter | omnitool/gradio/tools/computer.py:151-152 | the key name of `r` is `r` |
| Strings.LeadingSpace | omnitool/gradio/tools/computer.py:151 | the whitespace run at the start of the text: all whitespace, and followed by a non-whitespace character unless it reaches the end |
| Strings.TrimEnd | omnitool/gradio/tools/computer.py:151 | the text without its trailing whitespace: a prefix that ends in a non-whitespace character, with only whitespace dropped |
| Strings.Strip | omnitool/gradio/tools/computer.py:151 | the result has no whitespace at either end |
| Strings.StripRemovesOnlySpace | omnitool/gradio/tools/computer.py:151 | strip removes only whitespace, and only from the ends: the result is a contiguous slice of the text, with whitespace before and after it |
| Strings.StripStripped | omnitool/gradio/tools/computer.py:151 | stripping a text with no surrounding whitespace changes nothing |
| Strings.Lower | omnitool/gradio/tools/computer.py:152 | lower-casing keeps the length |
| Strings.LowerShape | omnitool/gradio/tools/computer.py:152 | lower-casing leaves no capital, moves each capital to its lower-case letter, and keeps every other character |
| Strings.LowerOfLower | omnitool/gradio/tools/computer.py:152 | lower-casing a text without capitals changes nothing |
| Strings.LowerKeepsStripped | omnitool/gradio/tools/computer.py:152 | lower-casing keeps a text free of surrounding whitespace |
| Strings.Split | omnitool/gradio/tools/computer.py:149 | splitting yields at least one piece, and no piece holds the separator |
| Strings.JoinSplit | omnitool/gradio/tools/computer.py:149 | joining the pieces of a split with the separator gives back the text |
| Strings.SplitJoin | omnitool/gradio/tools/computer.py:149 | splitting the join of at least one separator-free piece gives back the pieces |
| Strings.SplitNoSeparator | omnitool/gradio/tools/computer.py:149 | a text without the separator splits into itself alone |
| Strings.SplitAfterPiece | omnitool/gradio/tools/computer.py:149 | a separator-free piece, the separator, and a rest split into the piece followed by the rest's pieces |
| Strings.NatToString | omnitool/gradio/tools/computer.py:132 | the decimal form of a natural is a non-empty run of digits, with a leading zero only for zero |
| Strings.IntToString | omnitool/gradio/tools/computer.py:132 | the decimal form of an integer is non-empty, starts with `-` exactly for negatives, and holds no comma or parenthesis |
| Strings.ParseNatToString | omnitool/gradio/tools/computer.py:132 | reading a natural's decimal form gives back the natural |
| Strings.ParseIntToString | omnitool/gradio/tools/computer.py:132 | reading an integer's decimal form gives back the integer |
| Strings.IntToStringInjective | omnitool/gradio/tools/computer.py:132 | different integers have different decimal forms |
| Reports.PointTextRoundTrip | omnitool/gradio/tools/computer.py:132 | `({x}, {y})` followed by anything reads back as the point and the rest |
| Reports.MoveReportRoundTrip | omnitool/gradio/tools/computer.py:132 | a `mouse_move` report reads back as exactly the target moved to |
| Reports.DragReportRoundTrip | omnitool/gradio/tools/computer.py:136 | a `left_click_drag` report reads back as exactly where the cursor was and where it went |
| Reports.CursorReportRoundTrip | omnitool/gradio/tools/computer.py:199 | a `cursor_position` report reads back as exactly the position reported |
| Reports.CursorReportInjective | omnitool/gradio/tools/computer.py:199 | different cursor positions give different reports |
| Chunking.ChunksOf | omnitool/gradio/tools/computer.py:54 | an empty text has no pieces, and every piece has between one and `size` characters |
| Chunking.Chunks | omnitool/gradio/tools/computer.py:53-54 | a zero size fails, as Python's `range` does; a negative size gives no pieces |
| Chunking.ChunksConcat | omnitool/gradio/tools/computer.py:54 | the pieces laid end to end give back the text |
| Chunking.ChunkIsSlice | omnitool/gradio/tools/computer.py:54 | piece `k` is the slice from `k*size` to `(k+1)*size`, clipped at the end of the text |
| Chunking.ChunkCount | omnitool/gradio/tools/computer.py:54 | there are just enough pieces to cover the text: the ceiling of its length over the size |
| Chunking.InnerChunksFull | omnitool/gradio/tools/computer.py:54 | every piece but the last is full |
| ScreenCapture.CursorCircle | omnitool/gradio/tools/screen_capture.py:25-28 | the marker circle's box is centred on the cursor and is twice the 10-pixel radius wide and high |
| ScreenCapture.HorizontalHair | omnitool/gradio/tools/screen_capture.py:31-32 | the horizontal stroke lies on the cursor's row, centred on it, four radii long |
| ScreenCapture.VerticalHair | omnitool/gradio/tools/screen_capture.py:33-34 | the vertical stroke lies on the cursor's column, centred on it, four radii long |
| ScreenCapture.MarkerCentredOnCursor | omnitool/gradio/tools/screen_capture.py:24-34 | the marker has three parts, all centred on the cursor: a circle of the fixed radius, then two strokes through the cursor, one horizontal and one vertical, each four radii long |
| ScreenCapture.ResizedSize | omnitool/gradio/tools/screen_capture.py:36-38 | with a resize asked for, the image always ends at the target size; without one, it keeps its own size |
| ScreenCapture.DistinctIdsDistinctPaths | omnitool/gradio/tools/screen_capture.py:8-14 | every screenshot goes in the output directory, and different UUIDs give different paths |
| ScreenCapture.GetScreenshot | omnitool/gradio/tools/screen_capture.py:10-43 | the capture succeeds exactly when nothing inside it raises; on success, the cursor marker is drawn on top of the grab, the image has the size the resize rule gives, and it is saved under the UUID's name; on failure, one `ToolError` carries `Failed to capture screenshot: ` and the exception's text |
| ScreenCapture.FailureMessagePrefixed | omnitool/gradio/tools/screen_capture.py:42-43 | every capture failure message starts with the fixed prefix |
| ScreenCapture.DefaultsKeepSize | omnitool/gradio/tools/screen_capture.py:10 | with the default arguments, a successful capture keeps the screen's own size |

## Left out

- The pixels of the screen grab, PNG encoding, the file write, and the
  base64 encoding of the saved file. A raster is modelled by its size and the
  shapes drawn on it, and a saved shot by its path.
- The automation library and the clock, which are outside the model. Each call
  into them becomes a trace event. The host supplies the cursor position, the
  screen grab, the UUID hex, and any exception raised while capturing.
- `get_screen_size`, `to_params` and the `print` calls: I/O with no effect on
  results. The constructor's screen size is a parameter of `NewTool`.
- `async`: each call runs to completion on its own.
- Durations: these are whole milliseconds (12, 500, 700, 1000) rather than
  Python floats in seconds.
- `TYPING_GROUP_SIZE`, `_screenshot_delay`, `offset_x` and `offset_y`: set but
  never read by the modelled code.
- `Strings.Lower`: lower-cases ASCII letters only. Python's `str.lower` also
  maps non-ASCII capitals.
- `Computer.Keyboard`: line 145 passes its message as a keyword argument
  named `output` to `ToolError`. `base.py` is not part of this model, so this
  is modelled as the same `ToolError` with that message as every other
  refusal.
- `ScreenCapture.ScreenshotPath`: the path is a directory and a file name.
  pathlib's printed form, which drops the leading `./`, is not modelled.
- `Computer.IsIntPair`: Python's `bool` counts as `int` in the integer check.
  The agent's values are given already classified as integers or not.
- Dictionaries and other mappings as coordinates are not modelled. A
  coordinate is a sequence with items, or a value that cannot be indexed.
- `ComputerContract.FailureLeavesNothingButCapture`: holds only inside the
  model. The model takes these never to raise: every automation-library call
  (for example pyautogui's fail-safe, or `moveTo` given the unchecked items a
  click passes on), the output-directory creation and `uuid4()` outside the
  capture's `try`, and the read-back of the saved file after the settle pause.
  Any of them raising in the program would be a failure after device calls
  that is not the capture's `ToolError`.
- `Computer.MoveFirst`: any exception Python raises while taking the
  coordinate apart is recorded by its class name only.
