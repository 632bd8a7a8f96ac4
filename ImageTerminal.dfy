/** Terminal image output (internal/image/terminal.go): which protocol the
    terminal speaks, how image bytes are recognised, how the Kitty graphics
    protocol receives a base64 payload in chunks, and which half-block glyph
    stands for two stacked pixels. The base64 text is taken as an opaque
    string and image decoding as a yes/no outcome. */
module ImageTerminal {
  import opened Wrappers
  import opened Text
  import opened GoMath

  // ------------------------------------------------------------ capabilities

  /** `TerminalCapability` is an `int`; the named values are consecutive
      from zero. */
  const CapabilityNone: int := 0
  const CapabilityUnicode: int := 1
  const CapabilitySixel: int := 2
  const CapabilityKitty: int := 3
  const CapabilityITerm2: int := 4

  /** `detectTerminalCapability`, with the values of `TERM`, `TERM_PROGRAM`
      and `KITTY_WINDOW_ID` as parameters. The xterm test has an empty body,
      so it does not appear. */
  function DetectTerminalCapability(term: string, termProgram: string, kittyWindowId: string): int {
    if kittyWindowId != "" || Contains(term, "kitty") || termProgram == "kitty" then CapabilityKitty
    else if termProgram == "iTerm.app" then CapabilityITerm2
    else CapabilityUnicode
  }

  /** The detection rules, each in both directions: detection never picks
      Sixel or None. */
  lemma DetectionRules(term: string, termProgram: string, kittyWindowId: string)
    ensures var capability := DetectTerminalCapability(term, termProgram, kittyWindowId);
      var kitty := kittyWindowId != "" || Contains(term, "kitty") || termProgram == "kitty";
      && (capability == CapabilityKitty <==> kitty)
      && (capability == CapabilityITerm2 <==> !kitty && termProgram == "iTerm.app")
      && (capability == CapabilityUnicode <==> !kitty && termProgram != "iTerm.app")
      && capability != CapabilitySixel && capability != CapabilityNone
  {
  }

  /** `CapabilityString`: the fixed name of each known capability and
      "None" for anything else. */
  function CapabilityString(capability: int): string {
    if capability == CapabilityKitty then "Kitty Graphics Protocol"
    else if capability == CapabilityITerm2 then "iTerm2 Inline Images"
    else if capability == CapabilitySixel then "Sixel"
    else if capability == CapabilityUnicode then "Unicode Block Art"
    else "None"
  }

  /** Every value outside the four protocols, `CapabilityNone` included, is
      named "None", and no protocol is: the name tells the protocols apart. */
  lemma CapabilityStringNames(c: int, d: int)
    ensures CapabilityString(c) == "None" <==> c !in {CapabilityUnicode, CapabilitySixel, CapabilityKitty, CapabilityITerm2}
    ensures (c in {CapabilityUnicode, CapabilitySixel, CapabilityKitty, CapabilityITerm2}
             && d in {CapabilityUnicode, CapabilitySixel, CapabilityKitty, CapabilityITerm2})
            ==> (CapabilityString(c) == CapabilityString(d) <==> c == d)
  {
    var names := ["Kitty Graphics Protocol", "iTerm2 Inline Images", "Sixel", "Unicode Block Art", "None"];
    assert names[0][0] == 'K' && names[1][0] == 'i' && names[2][0] == 'S' && names[3][0] == 'U' && names[4][0] == 'N';
  }

  // ------------------------------------------------------------ rendering dispatch

  /** The renderer `Render` hands the image to. */
  datatype Renderer = KittyRenderer | ITerm2Renderer | UnicodeRenderer

  /** `Render` fails when the bytes do not decode ("failed to decode image");
      otherwise it dispatches on the capability, and `renderSixel` is itself
      `renderUnicode`, so Sixel and every unknown capability draw block art. */
  function RenderVia(capability: int, decodes: bool): Result<Renderer, string> {
    if !decodes then Err("failed to decode image")
    else if capability == CapabilityKitty then Ok(KittyRenderer)
    else if capability == CapabilityITerm2 then Ok(ITerm2Renderer)
    else Ok(UnicodeRenderer)
  }

  lemma RenderDispatch(capability: int, decodes: bool)
    ensures RenderVia(capability, decodes).Err? <==> !decodes
    ensures decodes && capability == CapabilitySixel ==> RenderVia(capability, decodes) == Ok(UnicodeRenderer)
    ensures decodes ==> (RenderVia(capability, decodes) == Ok(UnicodeRenderer)
                         <==> capability != CapabilityKitty && capability != CapabilityITerm2)
  {
  }

  // ------------------------------------------------------------ magic bytes

  /** `detectImageFormat`: the format named by the leading magic bytes. */
  function DetectImageFormat(data: seq<bv8>): string {
    if |data| < 4 then "unknown"
    else if data[0] == 0x89 && data[1] == 0x50 && data[2] == 0x4E && data[3] == 0x47 then "png"
    else if data[0] == 0xFF && data[1] == 0xD8 && data[2] == 0xFF then "jpeg"
    else if data[0] == 0x47 && data[1] == 0x49 && data[2] == 0x46 then "gif"
    else "unknown"
  }

  predicate IsPng(data: seq<bv8>) {
    |data| >= 4 && data[..4] == [0x89, 0x50, 0x4E, 0x47]
  }

  predicate IsJpeg(data: seq<bv8>) {
    |data| >= 4 && data[..3] == [0xFF, 0xD8, 0xFF]
  }

  predicate IsGif(data: seq<bv8>) {
    |data| >= 4 && data[..3] == [0x47, 0x49, 0x46]
  }

  /** The format is named by its signature; a short input or one with no
      known signature is "unknown". Even three bytes of a JPEG or GIF
      signature are "unknown" when the input is shorter than four bytes. */
  lemma DetectImageFormatRules(data: seq<bv8>)
    ensures DetectImageFormat(data) == "png" <==> IsPng(data)
    ensures DetectImageFormat(data) == "jpeg" <==> IsJpeg(data)
    ensures DetectImageFormat(data) == "gif" <==> IsGif(data)
    ensures DetectImageFormat(data) == "unknown" <==> !IsPng(data) && !IsJpeg(data) && !IsGif(data)
  {
    if |data| >= 4 {
      assert data[..4][0] == data[0] && data[..4][1] == data[1] && data[..4][2] == data[2] && data[..4][3] == data[3];
      assert data[..3][0] == data[0] && data[..3][1] == data[1] && data[..3][2] == data[2];
    }
  }

  /** The signatures cannot overlap, so the order of the tests only matters
      in principle: PNG is never mistaken for anything else. */
  lemma SignaturesDisjoint(data: seq<bv8>)
    ensures !(IsPng(data) && IsJpeg(data)) && !(IsPng(data) && IsGif(data)) && !(IsJpeg(data) && IsGif(data))
  {
    if |data| >= 4 {
      assert data[..4][0] == data[0] && data[..3][0] == data[0];
    }
  }

  /** The Kitty `f=` code: 24 for JPEG data, 100 (PNG) for anything else. */
  function KittyFormatCode(format: string): int {
    if format == "png" then 100
    else if format == "jpeg" || format == "jpg" then 24
    else 100
  }

  lemma KittyFormatCodeOfData(data: seq<bv8>)
    ensures KittyFormatCode(DetectImageFormat(data)) == (if IsJpeg(data) then 24 else 100)
  {
    DetectImageFormatRules(data);
  }

  // ------------------------------------------------------------ Kitty chunks

  const ChunkSize: nat := 4096

  /** One Kitty graphics command: whether it is the first one (which alone
      carries the image parameters), its `m=` flag and its payload. */
  datatype KittyChunk = KittyChunk(first: bool, more: int, payload: string)

  /** The chunks the loop of `renderKitty` cuts from `encoded[from..]`, the
      loop variable starting at `from`. */
  function KittyChunks(encoded: string, from: nat): seq<KittyChunk>
    decreases |encoded| - from
  {
    if from >= |encoded| then []
    else
      var end := if from + ChunkSize > |encoded| then |encoded| else from + ChunkSize;
      [KittyChunk(from == 0, if end < |encoded| then 1 else 0, encoded[from..end])]
        + KittyChunks(encoded, from + ChunkSize)
  }

  function Payloads(cs: seq<KittyChunk>): string {
    if cs == [] then "" else cs[0].payload + Payloads(cs[1..])
  }

  /** The chunks cover the text from `from` on, in order and without gaps,
      each of at most 4096 characters and none empty. */
  lemma {:induction false} KittyChunksCover(encoded: string, from: nat)
    requires from <= |encoded|
    ensures Payloads(KittyChunks(encoded, from)) == encoded[from..]
    ensures forall k :: 0 <= k < |KittyChunks(encoded, from)| ==>
      0 < |KittyChunks(encoded, from)[k].payload| <= ChunkSize
    decreases |encoded| - from
  {
    var cs := KittyChunks(encoded, from);
    if from < |encoded| {
      var next := if from + ChunkSize > |encoded| then |encoded| else from + ChunkSize;
      var rest := KittyChunks(encoded, from + ChunkSize);
      assert cs[1..] == rest;
      if from + ChunkSize <= |encoded| {
        KittyChunksCover(encoded, from + ChunkSize);
        assert encoded[from..] == encoded[from..next] + encoded[from + ChunkSize..];
      } else {
        assert rest == [];
      }
      forall k | 0 <= k < |cs|
        ensures 0 < |cs[k].payload| <= ChunkSize
      {
        if k > 0 {
          assert cs[k] == rest[k - 1];
        }
      }
    }
  }

  predicate FlagsFrom(cs: seq<KittyChunk>, from: nat) {
    forall k :: 0 <= k < |cs| ==>
      (cs[k].first <==> from == 0 && k == 0) && cs[k].more == (if k < |cs| - 1 then 1 else 0)
  }

  /** Only the first chunk of the whole text is marked first; `m=1` on every
      chunk but the last, `m=0` on the last. */
  lemma {:induction false} KittyChunkFlags(encoded: string, from: nat)
    ensures FlagsFrom(KittyChunks(encoded, from), from)
    decreases |encoded| - from
  {
    var cs := KittyChunks(encoded, from);
    if from < |encoded| {
      var rest := KittyChunks(encoded, from + ChunkSize);
      KittyChunkFlags(encoded, from + ChunkSize);
      assert cs[1..] == rest;
      assert rest == [] <==> from + ChunkSize >= |encoded|;
      assert cs[0].first <==> from == 0;
      assert cs[0].more == (if |cs| > 1 then 1 else 0);
      forall k | 0 < k < |cs|
        ensures (cs[k].first <==> from == 0 && k == 0) && cs[k].more == (if k < |cs| - 1 then 1 else 0)
      {
        assert cs[k] == rest[k - 1];
      }
    }
  }

  /** The text is cut into as many chunks as it takes 4096-character pieces
      to hold it. */
  lemma {:induction false} KittyChunkCount(encoded: string, from: nat)
    requires from <= |encoded|
    ensures |KittyChunks(encoded, from)| == (|encoded| - from + ChunkSize - 1) / ChunkSize
    decreases |encoded| - from
  {
    if from < |encoded| && from + ChunkSize <= |encoded| {
      KittyChunkCount(encoded, from + ChunkSize);
    }
  }

  /** The escape sequence one chunk is written as: the first with
      `f=<format>,a=T,t=d,c=<columns>,r=<rows>,m=<more>`, the others with
      `m=<more>` only. */
  function KittyCommand(c: KittyChunk, formatCode: int, width: int, height: int): string {
    if c.first then
      "\U{1B}_Gf=" + IntToString(formatCode) + ",a=T,t=d,c=" + IntToString(width)
        + ",r=" + IntToString(height) + ",m=" + IntToString(c.more) + ";" + c.payload + "\U{1B}\\"
    else
      "\U{1B}_Gm=" + IntToString(c.more) + ";" + c.payload + "\U{1B}\\"
  }

  function KittyCommands(cs: seq<KittyChunk>, formatCode: int, width: int, height: int): string {
    if cs == [] then "" else KittyCommand(cs[0], formatCode, width, height) + KittyCommands(cs[1..], formatCode, width, height)
  }

  lemma AppendAssociative(a: string, b: string, c: string)
    ensures (a + b) + c == a + (b + c)
  {
  }

  /** `renderKitty`, with the base64 text of `imgData` given as `encoded`:
      the commands for the chunks of the text, then a newline. */
  method RenderKitty(imgData: seq<bv8>, encoded: string, width: int, height: int) returns (output: string)
    ensures output == KittyCommands(KittyChunks(encoded, 0), KittyFormatCode(DetectImageFormat(imgData)), width, height) + "\n"
    ensures output[|output| - 1] == '\n'
  {
    var formatCode := KittyFormatCode(DetectImageFormat(imgData));
    ghost var all := KittyCommands(KittyChunks(encoded, 0), formatCode, width, height);
    output := "";
    var i: nat := 0;
    while i < |encoded|
      invariant output + KittyCommands(KittyChunks(encoded, i), formatCode, width, height) == all
      decreases |encoded| - i
    {
      var end := i + ChunkSize;
      if end > |encoded| {
        end := |encoded|;
      }
      var chunk := encoded[i..end];
      var more := 0;
      if end < |encoded| {
        more := 1;
      }
      ghost var cs := KittyChunks(encoded, i);
      assert cs[0] == KittyChunk(i == 0, more, chunk) && cs[1..] == KittyChunks(encoded, i + ChunkSize);
      var command: string;
      if i == 0 {
        command := "\U{1B}_Gf=" + IntToString(formatCode) + ",a=T,t=d,c=" + IntToString(width)
          + ",r=" + IntToString(height) + ",m=" + IntToString(more) + ";" + chunk + "\U{1B}\\";
      } else {
        command := "\U{1B}_Gm=" + IntToString(more) + ";" + chunk + "\U{1B}\\";
      }
      assert command == KittyCommand(cs[0], formatCode, width, height);
      ghost var tail := KittyCommands(cs[1..], formatCode, width, height);
      assert KittyCommands(cs, formatCode, width, height) == command + tail;
      AppendAssociative(output, command, tail);
      output := output + command;
      i := i + ChunkSize;
    }
    output := output + "\n";
  }

  /** An empty image text gives no command at all, only the newline. */
  lemma KittyEmpty(formatCode: int, width: int, height: int)
    ensures KittyCommands(KittyChunks("", 0), formatCode, width, height) + "\n" == "\n"
  {
  }

  // ------------------------------------------------------------ half blocks

  /** A colour as `color.Color.RGBA()` reports it: 16-bit channels. */
  datatype Rgba = Rgba(r: nat, g: nat, b: nat, a: nat)

  /** `color.Black`, whose `RGBA()` is opaque black. */
  const Black: Rgba := Rgba(0, 0, 0, 0xFFFF)

  /** The 8-bit value of a 16-bit channel (`>> 8`). */
  function Eight(v: nat): nat {
    v / 256
  }

  function Brightness(c: Rgba): nat {
    (Eight(c.r) + Eight(c.g) + Eight(c.b)) / 3
  }

  predicate Transparent(c: Rgba) {
    Eight(c.a) < 128
  }

  /** `blockChar(top, bottom)`: the glyph for a cell whose upper half is
      `top` and lower half `bottom`, with its foreground and background. */
  function BlockChar(top: Rgba, bottom: Rgba): (char, Rgba, Rgba) {
    var topBright := Brightness(top);
    var bottomBright := Brightness(bottom);
    if Transparent(top) && Transparent(bottom) then (' ', top, bottom)
    else if Transparent(top) then ('▄', bottom, Black)
    else if Transparent(bottom) then ('▀', top, Black)
    else if Abs(topBright - bottomBright) < 30 then
      (if topBright > 128 then ('█', top, top) else (' ', Black, Black))
    else if topBright > bottomBright then ('▀', top, bottom)
    else ('▄', bottom, top)
  }

  /** What the glyph shows: a half block is painted in the foreground over
      the background, so the '▀' foreground is the top pixel and the '▄'
      foreground the bottom pixel whenever that pixel is opaque, and a
      transparent pixel's half shows black. */
  lemma BlockCharShowsPixels(top: Rgba, bottom: Rgba)
    ensures var (ch, fg, bg) := BlockChar(top, bottom);
      && (ch == '▀' ==> fg == top && !Transparent(top) && (bg == bottom || (Transparent(bottom) && bg == Black)))
      && (ch == '▄' ==> fg == bottom && !Transparent(bottom) && (bg == top || (Transparent(top) && bg == Black)))
      && (ch == '█' ==> fg == top && bg == top && Brightness(top) > 128)
      && (ch in {' ', '▀', '▄', '█'})
  {
  }

  /** Turning the cell upside down mirrors the glyph and keeps both colours,
      except when two opaque pixels are too alike to split. */
  lemma BlockCharMirror(top: Rgba, bottom: Rgba)
    requires Transparent(top) || Transparent(bottom) || Abs(Brightness(top) - Brightness(bottom)) >= 30
    ensures var (ch, fg, bg) := BlockChar(top, bottom);
      var (ch', fg', bg') := BlockChar(bottom, top);
      && (ch == '▀' <==> ch' == '▄') && (ch == '▄' <==> ch' == '▀') && (ch == ' ' <==> ch' == ' ')
      && (ch != ' ' ==> fg == fg' && bg == bg')
  {
  }

  /** The rules in the order the source checks them. */
  lemma BlockCharRules(top: Rgba, bottom: Rgba)
    ensures Transparent(top) && Transparent(bottom) ==> BlockChar(top, bottom).0 == ' '
    ensures Transparent(top) && !Transparent(bottom) ==> BlockChar(top, bottom).0 == '▄'
    ensures !Transparent(top) && Transparent(bottom) ==> BlockChar(top, bottom).0 == '▀'
    ensures !Transparent(top) && !Transparent(bottom) && Abs(Brightness(top) - Brightness(bottom)) < 30 ==>
      BlockChar(top, bottom).0 == (if Brightness(top) > 128 then '█' else ' ')
    ensures !Transparent(top) && !Transparent(bottom) && Abs(Brightness(top) - Brightness(bottom)) >= 30 ==>
      BlockChar(top, bottom).0 == (if Brightness(top) > Brightness(bottom) then '▀' else '▄')
  {
  }

  // ------------------------------------------------------------ sizing

  /** The image's width-to-height ratio, doubled because terminal cells
      are twice as tall as wide. */
  function AdjustedAspect(imgWidth: int, imgHeight: int): real
    requires imgHeight != 0
  {
    imgWidth as real / imgHeight as real * 2.0
  }

  /** `CalculateAspectRatio`: fill the width and derive the height, shrink
      to the height limit if that is exceeded, then raise to at least 10
      columns and 5 rows. A zero image height makes the ratio infinite, so
      the derived height rounds to 0 and the full width is kept. */
  function CalculateAspectRatio(imgWidth: int, imgHeight: int, maxWidth: int, maxHeight: int): (int, int)
    requires imgWidth != 0 && (imgHeight != 0 || maxHeight >= 0)
  {
    var derived := if imgHeight == 0 then 0 else Round(maxWidth as real / AdjustedAspect(imgWidth, imgHeight));
    var (width, height) :=
      if derived > maxHeight then (Round(maxHeight as real * AdjustedAspect(imgWidth, imgHeight)), maxHeight)
      else (maxWidth, derived);
    (if width < 10 then 10 else width, if height < 5 then 5 else height)
  }

  /** The result is at least 10 by 5; its height exceeds the height limit
      only when the limit is under the minimum; when the full width fits,
      the width is the limit (or the minimum) and the height follows the
      image's shape to within half a row; a zero image height gives the
      full width and the minimum height. */
  lemma AspectRatioBounds(imgWidth: int, imgHeight: int, maxWidth: int, maxHeight: int)
    requires imgWidth != 0 && (imgHeight != 0 || maxHeight >= 0)
    ensures var (w, h) := CalculateAspectRatio(imgWidth, imgHeight, maxWidth, maxHeight);
      && w >= 10 && h >= 5
      && (h <= maxHeight || h == 5)
    ensures imgHeight != 0 ==>
      var adjusted := imgWidth as real / imgHeight as real * 2.0;
      var (w, h) := CalculateAspectRatio(imgWidth, imgHeight, maxWidth, maxHeight);
      Round(maxWidth as real / adjusted) <= maxHeight ==>
        && w == (if maxWidth < 10 then 10 else maxWidth)
        && (h == 5 || AbsR(h as real - maxWidth as real / adjusted) <= 0.5)
    ensures imgHeight == 0 ==>
      CalculateAspectRatio(imgWidth, imgHeight, maxWidth, maxHeight) == (if maxWidth < 10 then 10 else maxWidth, 5)
  {
  }
}
