/** The certificate compositor: one canvas per recipient, the template drawn
    first and every field painted on top of it in list order, each field
    bracketed by a save and a restore of the drawing state.

    The canvas is modelled by what is drawn on it: every drawing call
    appends a command recording its arguments and the drawing state it used.
    Text metrics and image decoding are supplied by an `Environment`. */
module Renderer {
  import opened Common
  import opened Scaling
  import opened Fields
  import Qr

  /** A CSS font `<size>px <family>`. */
  datatype Font = Font(size: real, family: string)

  datatype CanvasAlign = AlignStart | AlignLeftEdge | AlignCentre
  datatype Baseline = BaselineAlphabetic | BaselineTop | BaselineMiddle

  /** The parts of a 2D context's state the compositor sets. */
  datatype DrawState = DrawState(
    fillStyle: string,
    strokeStyle: string,
    font: Font,
    textAlign: CanvasAlign,
    textBaseline: Baseline)

  /** The state of a fresh context. */
  const InitialState := DrawState("#000000", "#000000", Font(10.0, "sans-serif"), AlignStart, BaselineAlphabetic)

  /** Where an image comes from: the template, or an image element whose
      `src` was set to a URL. */
  datatype ImageSource = TemplateImage | Url(src: string)

  datatype DrawCommand =
    | DrawImage(source: ImageSource, x: real, y: real, width: real, height: real)
    | FillText(text: string, x: real, y: real, fill: string, font: Font, align: CanvasAlign, baseline: Baseline)
    | FillRect(x: real, y: real, width: real, height: real, fill: string)
    | StrokeRect(x: real, y: real, width: real, height: real, stroke: string)

  /** An HTML canvas with its 2D context. */
  class Canvas {
    var width: real
    var height: real
    var state: DrawState
    var saved: seq<DrawState>
    var commands: seq<DrawCommand>

    /** `document.createElement("canvas")` and its context: 300 by 150,
        nothing drawn. */
    constructor()
      ensures width == 300.0 && height == 150.0
      ensures state == InitialState && saved == [] && commands == []
    {
      width := 300.0;
      height := 150.0;
      state := InitialState;
      saved := [];
      commands := [];
    }

    /** `ctx.save()`: pushes the drawing state. */
    method Save()
      modifies this
      ensures saved == old(saved) + [old(state)]
      ensures state == old(state) && commands == old(commands)
      ensures width == old(width) && height == old(height)
    {
      saved := saved + [state];
    }

    /** `ctx.restore()`: pops the drawing state; with nothing saved it does
        nothing. */
    method Restore()
      modifies this
      ensures old(saved) == [] ==> saved == [] && state == old(state)
      ensures old(saved) != [] ==> saved == old(saved)[..|old(saved)| - 1] && state == old(saved)[|old(saved)| - 1]
      ensures commands == old(commands)
      ensures width == old(width) && height == old(height)
    {
      if saved != [] {
        state := saved[|saved| - 1];
        saved := saved[..|saved| - 1];
      }
    }

    /** `ctx.fillText(text, x, y)` with the current fill style, font and
        alignment. */
    method FillTextAt(text: string, x: real, y: real)
      modifies this
      ensures commands == old(commands) + [FillText(text, x, y, state.fillStyle, state.font, state.textAlign, state.textBaseline)]
      ensures state == old(state) && saved == old(saved)
      ensures width == old(width) && height == old(height)
    {
      commands := commands + [FillText(text, x, y, state.fillStyle, state.font, state.textAlign, state.textBaseline)];
    }

    /** `ctx.fillRect(x, y, w, h)` with the current fill style. */
    method FillRectAt(x: real, y: real, w: real, h: real)
      modifies this
      ensures commands == old(commands) + [FillRect(x, y, w, h, state.fillStyle)]
      ensures state == old(state) && saved == old(saved)
      ensures width == old(width) && height == old(height)
    {
      commands := commands + [FillRect(x, y, w, h, state.fillStyle)];
    }

    /** `ctx.strokeRect(x, y, w, h)` with the current stroke style. */
    method StrokeRectAt(x: real, y: real, w: real, h: real)
      modifies this
      ensures commands == old(commands) + [StrokeRect(x, y, w, h, state.strokeStyle)]
      ensures state == old(state) && saved == old(saved)
      ensures width == old(width) && height == old(height)
    {
      commands := commands + [StrokeRect(x, y, w, h, state.strokeStyle)];
    }

    /** `ctx.drawImage(image, x, y, w, h)`. */
    method DrawImageAt(source: ImageSource, x: real, y: real, w: real, h: real)
      modifies this
      ensures commands == old(commands) + [DrawImage(source, x, y, w, h)]
      ensures state == old(state) && saved == old(saved)
      ensures width == old(width) && height == old(height)
    {
      commands := commands + [DrawImage(source, x, y, w, h)];
    }
  }

  type Positive = r: real | r > 0.0 witness 1.0

  /** How an image element settles once its `src` is set: `onload` with the
      image's natural size, or `onerror`. */
  datatype ImageLoad = Loaded(naturalWidth: Positive, naturalHeight: Positive) | LoadError

  /** What the browser supplies: `measureText(text).width` under a font,
      the outcome of loading each image URL, and whether `getContext("2d")`
      returns a context. */
  datatype Environment = Environment(
    measure: (Font, string) -> real,
    load: string -> ImageLoad,
    contextAvailable: bool)

  /** `recipient[field.id] || ""`. */
  function FieldValue(recipient: map<string, string>, id: string): (r: string)
    ensures id in recipient ==> r == recipient[id]
    ensures id !in recipient ==> r == ""
  {
    if id in recipient then recipient[id] else ""
  }

  const DefaultFontSize: real := 16.0
  const DefaultFontFamily := "Arial"
  const DefaultColor := "#000000"

  function FontSize(f: Field): real {
    if f.fontSize.Some? then f.fontSize.value else DefaultFontSize
  }

  function FieldFont(f: Field): Font {
    Font(FontSize(f), if f.fontFamily.Some? then f.fontFamily.value else DefaultFontFamily)
  }

  function FieldColor(f: Field): string {
    if f.color.Some? then f.color.value else DefaultColor
  }

  /** Text of a field in its own colour and font, left-aligned from the top. */
  function TextAt(f: Field, text: string, x: real, y: real): DrawCommand {
    FillText(text, x, y, FieldColor(f), FieldFont(f), AlignLeftEdge, BaselineTop)
  }

  /** The state of the greedy wrap after some words: the lines already
      drawn and the line being built (each word followed by a space). */
  datatype Wrap = Wrap(flushed: seq<string>, line: string)

  /** One more word: when it would push a non-empty line past `maxWidth`
      the line is drawn and the word starts the next one. */
  function NextWrap(w: Wrap, word: string, font: Font, maxWidth: real, measure: (Font, string) -> real): Wrap {
    var testLine := w.line + word + " ";
    if measure(font, testLine) > maxWidth && w.line != "" then Wrap(w.flushed + [w.line], word + " ")
    else Wrap(w.flushed, testLine)
  }

  /** The wrap after `words`, one word at a time. */
  function WrapWords(words: seq<string>, font: Font, maxWidth: real, measure: (Font, string) -> real): Wrap
  {
    if words == [] then Wrap([], "")
    else NextWrap(WrapWords(words[..|words| - 1], font, maxWidth, measure), words[|words| - 1], font, maxWidth, measure)
  }

  /** The lines a text or date field is drawn as. */
  function Lines(value: string, font: Font, maxWidth: real, measure: (Font, string) -> real): seq<string> {
    var w := WrapWords(Split(value, ' '), font, maxWidth, measure);
    w.flushed + [w.line]
  }

  /** Line `k` at `y + k * lineHeight`. */
  function TextRows(f: Field, lines: seq<string>, lineHeight: real): (r: seq<DrawCommand>)
    ensures |r| == |lines|
    ensures forall k :: 0 <= k < |lines| ==> r[k] == TextAt(f, lines[k], f.x, f.y + RowOffset(k, lineHeight))
  {
    seq(|lines|, k requires 0 <= k < |lines| => TextAt(f, lines[k], f.x, f.y + RowOffset(k, lineHeight)))
  }

  /** The image box: as wide as the field unless that would make it too
      tall, then as tall as the field; centred in the field. */
  function Letterbox(x: real, y: real, width: real, height: real, imageWidth: Positive, imageHeight: Positive): (r: Rect)
    ensures r.x - x == (x + width) - (r.x + r.width)
    ensures r.y - y == (y + height) - (r.y + r.height)
    ensures r.width == r.height * (imageWidth / imageHeight)
  {
    var aspectRatio := imageWidth / imageHeight;
    var drawWidth := width;
    var drawHeight := width / aspectRatio;
    if drawHeight > height then
      Rect(x + (width - height * aspectRatio) / 2.0, y + (height - height) / 2.0, height * aspectRatio, height)
    else
      Rect(x + (width - drawWidth) / 2.0, y + (height - drawHeight) / 2.0, drawWidth, drawHeight)
  }

  /** `signatureImages.find(sig => sig.id === id)`. */
  function FindSignature(images: seq<SignatureImage>, id: string): (r: Option<SignatureImage>)
    ensures r.None? <==> forall k :: 0 <= k < |images| ==> images[k].id != id
    ensures r.Some? ==> exists k :: 0 <= k < |images| && images[k] == r.value && r.value.id == id &&
                                    forall j :: 0 <= j < k ==> images[j].id != id
  {
    if images == [] then None
    else if images[0].id == id then assert images[0] == images[0]; Some(images[0])
    else
      var r := FindSignature(images[1..], id);
      if r.Some? then
        var k :| 0 <= k < |images[1..]| && images[1..][k] == r.value && r.value.id == id &&
                 forall j :: 0 <= j < k ==> images[1..][j].id != id;
        assert images[k + 1] == r.value;
        r
      else r
  }

  /** What a signature field paints. */
  function SignatureCommands(f: Field, images: seq<SignatureImage>, env: Environment): seq<DrawCommand> {
    if Truthy(f.signatureImageId) then
      match FindSignature(images, f.signatureImageId.value)
      case Some(sig) =>
        (match env.load(sig.dataUrl)
         case Loaded(iw, ih) =>
           var box := Letterbox(f.x, f.y, f.width, f.height, iw, ih);
           [DrawImage(Url(sig.dataUrl), box.x, box.y, box.width, box.height)]
         case LoadError => [])
      case None => [TextAt(f, "Signature", f.x, f.y)]
    else [TextAt(f, "Signature", f.x, f.y)]
  }

  const PlaceholderFill := "#e9ecef"
  const PlaceholderInk := "#6c757d"

  /** The grey box with a centred "QR Code" label. */
  function QrPlaceholder(f: Field): seq<DrawCommand> {
    [FillRect(f.x, f.y, f.width, f.height, PlaceholderFill),
     StrokeRect(f.x, f.y, f.width, f.height, PlaceholderInk),
     FillText("QR Code", f.x + f.width / 2.0, f.y + f.height / 2.0, PlaceholderInk, Font(10.0, "Arial"), AlignCentre, BaselineMiddle)]
  }

  /** What a QR field paints: the QR image over the field's box, or the
      placeholder when there is no QR data URL or it fails to load. */
  function QrCommands(f: Field, qrCode: string, env: Environment): seq<DrawCommand> {
    if qrCode != "" && env.load(qrCode).Loaded? then [DrawImage(Url(qrCode), f.x, f.y, f.width, f.height)]
    else QrPlaceholder(f)
  }

  /** Everything one field paints, by its kind. */
  function FieldCommands(f: Field, recipient: map<string, string>, certificateId: string, qrCode: string,
                         images: seq<SignatureImage>, env: Environment): seq<DrawCommand>
  {
    match f.kind
    case Text => TextRows(f, Lines(FieldValue(recipient, f.id), FieldFont(f), f.width, env.measure), FontSize(f) * 1.2)
    case Date => TextRows(f, Lines(FieldValue(recipient, f.id), FieldFont(f), f.width, env.measure), FontSize(f) * 1.2)
    case Signature => SignatureCommands(f, images, env)
    case CertificateId => [TextAt(f, certificateId, f.x, f.y)]
    case Qr => QrCommands(f, qrCode, env)
  }

  /** The text style every text-drawing branch sets before drawing. */
  method SetTextStyle(canvas: Canvas, f: Field)
    modifies canvas
    ensures canvas.state == old(canvas.state).(fillStyle := FieldColor(f), font := FieldFont(f),
                                               textAlign := AlignLeftEdge, textBaseline := BaselineTop)
    ensures canvas.saved == old(canvas.saved) && canvas.commands == old(canvas.commands)
    ensures canvas.width == old(canvas.width) && canvas.height == old(canvas.height)
  {
    canvas.state := canvas.state.(fillStyle := FieldColor(f));
    canvas.state := canvas.state.(font := FieldFont(f));
    canvas.state := canvas.state.(textAlign := AlignLeftEdge);
    canvas.state := canvas.state.(textBaseline := BaselineTop);
  }

  /** The word-wrap loop of a text or date field, drawing each line as soon
      as the next word overflows it and the last line at the end. */
  method DrawWrappedText(canvas: Canvas, f: Field, value: string, env: Environment)
    requires canvas.state.font == FieldFont(f) && canvas.state.fillStyle == FieldColor(f)
    requires canvas.state.textAlign == AlignLeftEdge && canvas.state.textBaseline == BaselineTop
    modifies canvas
    ensures canvas.commands == old(canvas.commands) + TextRows(f, Lines(value, FieldFont(f), f.width, env.measure), FontSize(f) * 1.2)
    ensures canvas.state == old(canvas.state) && canvas.saved == old(canvas.saved)
    ensures canvas.width == old(canvas.width) && canvas.height == old(canvas.height)
  {
    var words := Split(value, ' ');
    var line := "";
    var yPos := f.y;
    var lineHeight := FontSize(f) * 1.2;
    ghost var font := FieldFont(f);
    ghost var flushed: seq<string> := [];
    var i := 0;
    while i < |words|
      invariant 0 <= i <= |words|
      invariant WrapWords(words[..i], font, f.width, env.measure) == Wrap(flushed, line)
      invariant yPos == f.y + RowOffset(|flushed|, lineHeight)
      invariant canvas.commands == old(canvas.commands) + TextRows(f, flushed, lineHeight)
      invariant canvas.state == old(canvas.state) && canvas.saved == old(canvas.saved)
      invariant canvas.width == old(canvas.width) && canvas.height == old(canvas.height)
    {
      WrapWordsStep(words, i, font, f.width, env.measure);
      line, yPos, flushed := DrawNextWord(canvas, f, words[i], line, yPos, flushed, lineHeight, env.measure, old(canvas.commands));
      i := i + 1;
    }
    assert words[..i] == words;
    assert Lines(value, font, f.width, env.measure) == flushed + [line];
    DrawRow(canvas, f, line, yPos, flushed, lineHeight);
  }

  /** One turn of the wrap loop: the word is added to the line, or, when
      that would overflow a non-empty line, the line is drawn and the word
      starts the next one. */
  method DrawNextWord(canvas: Canvas, f: Field, word: string, line: string, yPos: real, ghost flushed: seq<string>,
                      lineHeight: real, measure: (Font, string) -> real, ghost base: seq<DrawCommand>)
    returns (line2: string, yPos2: real, ghost flushed2: seq<string>)
    requires canvas.state.font == FieldFont(f) && canvas.state.fillStyle == FieldColor(f)
    requires canvas.state.textAlign == AlignLeftEdge && canvas.state.textBaseline == BaselineTop
    requires yPos == f.y + RowOffset(|flushed|, lineHeight)
    requires canvas.commands == base + TextRows(f, flushed, lineHeight)
    modifies canvas
    ensures Wrap(flushed2, line2) == NextWrap(Wrap(flushed, line), word, FieldFont(f), f.width, measure)
    ensures yPos2 == f.y + RowOffset(|flushed2|, lineHeight)
    ensures canvas.commands == base + TextRows(f, flushed2, lineHeight)
    ensures canvas.state == old(canvas.state) && canvas.saved == old(canvas.saved)
    ensures canvas.width == old(canvas.width) && canvas.height == old(canvas.height)
  {
    var testLine := line + word + " ";
    var testWidth := measure(canvas.state.font, testLine);
    if testWidth > f.width && line != "" {
      DrawRow(canvas, f, line, yPos, flushed, lineHeight);
      NextRow(|flushed|, lineHeight);
      flushed2 := flushed + [line];
      line2 := word + " ";
      yPos2 := yPos + lineHeight;
    } else {
      line2, yPos2, flushed2 := testLine, yPos, flushed;
    }
  }

  /** Draws the row after the rows `above`, at its offset below the field's
      top. */
  method DrawRow(canvas: Canvas, f: Field, line: string, yPos: real, ghost above: seq<string>, lineHeight: real)
    requires canvas.state.font == FieldFont(f) && canvas.state.fillStyle == FieldColor(f)
    requires canvas.state.textAlign == AlignLeftEdge && canvas.state.textBaseline == BaselineTop
    requires yPos == f.y + RowOffset(|above|, lineHeight)
    modifies canvas
    ensures canvas.commands == old(canvas.commands) + [TextAt(f, line, f.x, yPos)]
    ensures TextRows(f, above + [line], lineHeight) == TextRows(f, above, lineHeight) + [TextAt(f, line, f.x, yPos)]
    ensures canvas.state == old(canvas.state) && canvas.saved == old(canvas.saved)
    ensures canvas.width == old(canvas.width) && canvas.height == old(canvas.height)
  {
    canvas.FillTextAt(line, f.x, yPos);
    TextRowsAppend(f, above, line, lineHeight);
  }

  /** Wrapping a prefix one word longer takes one more step. */
  lemma WrapWordsStep(words: seq<string>, i: nat, font: Font, maxWidth: real, measure: (Font, string) -> real)
    requires i < |words|
    ensures WrapWords(words[..i + 1], font, maxWidth, measure) ==
            NextWrap(WrapWords(words[..i], font, maxWidth, measure), words[i], font, maxWidth, measure)
  {
    assert words[..i + 1][..i] == words[..i];
  }

  /** How far below the first line line `n` starts. */
  function RowOffset(n: nat, lineHeight: real): real {
    (n as real) * lineHeight
  }

  lemma NextRow(n: nat, lineHeight: real)
    ensures RowOffset(n + 1, lineHeight) == RowOffset(n, lineHeight) + lineHeight
  {
  }

  lemma TextRowsAppend(f: Field, lines: seq<string>, line: string, lineHeight: real)
    ensures TextRows(f, lines + [line], lineHeight) ==
            TextRows(f, lines, lineHeight) + [TextAt(f, line, f.x, f.y + RowOffset(|lines|, lineHeight))]
  {
  }

  /** The QR placeholder, drawn step by step. */
  method DrawQrPlaceholder(canvas: Canvas, f: Field)
    modifies canvas
    ensures canvas.commands == old(canvas.commands) + QrPlaceholder(f)
    ensures canvas.saved == old(canvas.saved)
    ensures canvas.width == old(canvas.width) && canvas.height == old(canvas.height)
  {
    canvas.state := canvas.state.(fillStyle := PlaceholderFill);
    canvas.FillRectAt(f.x, f.y, f.width, f.height);
    canvas.state := canvas.state.(strokeStyle := PlaceholderInk);
    canvas.StrokeRectAt(f.x, f.y, f.width, f.height);
    canvas.state := canvas.state.(fillStyle := PlaceholderInk);
    canvas.state := canvas.state.(font := Font(10.0, "Arial"));
    canvas.state := canvas.state.(textAlign := AlignCentre);
    canvas.state := canvas.state.(textBaseline := BaselineMiddle);
    canvas.FillTextAt("QR Code", f.x + f.width / 2.0, f.y + f.height / 2.0);
  }

  /** `renderField`: paints one field between a save and a restore, so the
      drawing state afterwards is the one before. */
  method RenderField(canvas: Canvas, f: Field, recipient: map<string, string>, certificateId: string, qrCode: string,
                     images: seq<SignatureImage>, env: Environment)
    modifies canvas
    ensures canvas.commands == old(canvas.commands) + FieldCommands(f, recipient, certificateId, qrCode, images, env)
    ensures canvas.state == old(canvas.state) && canvas.saved == old(canvas.saved)
    ensures canvas.width == old(canvas.width) && canvas.height == old(canvas.height)
  {
    canvas.Save();
    var fieldValue := FieldValue(recipient, f.id);
    match f.kind {
      case Text =>
        SetTextStyle(canvas, f);
        DrawWrappedText(canvas, f, fieldValue, env);
      case Date =>
        SetTextStyle(canvas, f);
        DrawWrappedText(canvas, f, fieldValue, env);
      case Signature =>
        if Truthy(f.signatureImageId) {
          var signatureImage := FindSignature(images, f.signatureImageId.value);
          if signatureImage.Some? {
            var sig := signatureImage.value;
            var outcome := env.load(sig.dataUrl);
            if outcome.Loaded? {
              var box := Letterbox(f.x, f.y, f.width, f.height, outcome.naturalWidth, outcome.naturalHeight);
              canvas.DrawImageAt(Url(sig.dataUrl), box.x, box.y, box.width, box.height);
            }
          } else {
            SetTextStyle(canvas, f);
            canvas.FillTextAt("Signature", f.x, f.y);
          }
        } else {
          SetTextStyle(canvas, f);
          canvas.FillTextAt("Signature", f.x, f.y);
        }
      case CertificateId =>
        SetTextStyle(canvas, f);
        canvas.FillTextAt(certificateId, f.x, f.y);
      case Qr =>
        if qrCode != "" {
          var outcome := env.load(qrCode);
          if outcome.Loaded? {
            canvas.DrawImageAt(Url(qrCode), f.x, f.y, f.width, f.height);
          } else {
            DrawQrPlaceholder(canvas, f);
          }
        } else {
          DrawQrPlaceholder(canvas, f);
        }
    }
    canvas.Restore();
  }

  /** `CertificateGenerationOptions`; `None` stands for an omitted key. */
  datatype GenerationOptions = GenerationOptions(
    fields: seq<Field>,
    recipient: map<string, string>,
    certificateId: string,
    qrCode: string,
    signatureImages: Option<seq<SignatureImage>>,
    width: Option<real>,
    height: Option<real>,
    scale: Option<real>,
    originalWidth: Option<real>,
    originalHeight: Option<real>)

  function CanvasWidth(o: GenerationOptions): real {
    if o.width.Some? then o.width.value else 800.0
  }

  function CanvasHeight(o: GenerationOptions): real {
    if o.height.Some? then o.height.value else 600.0
  }

  function ScaleOption(o: GenerationOptions): real {
    if o.scale.Some? then o.scale.value else 1.0
  }

  function Images(o: GenerationOptions): seq<SignatureImage> {
    if o.signatureImages.Some? then o.signatureImages.value else []
  }

  /** A number is truthy when it is present and not zero. */
  predicate NumberTruthy(n: Option<real>) {
    n.Some? && n.value != 0.0
  }

  /** The field as it is drawn: its geometry multiplied by the scale when a
      non-zero scale and both original dimensions are given, as it is
      otherwise. */
  function ScaledField(f: Field, scale: real, originalWidth: Option<real>, originalHeight: Option<real>): (r: Field)
    ensures r.(x := f.x, y := f.y, width := f.width, height := f.height) == f
  {
    if scale != 0.0 && NumberTruthy(originalWidth) && NumberTruthy(originalHeight) then
      var s := ScaleCoordinates(f.x, f.y, f.width, f.height, scale);
      f.(x := s.x, y := s.y, width := s.width, height := s.height)
    else f
  }

  /** What the fields paint, in list order. */
  function FieldsCommands(fields: seq<Field>, o: GenerationOptions, env: Environment): seq<DrawCommand> {
    if fields == [] then []
    else
      FieldsCommands(fields[..|fields| - 1], o, env) +
      FieldCommands(ScaledField(fields[|fields| - 1], ScaleOption(o), o.originalWidth, o.originalHeight),
                    o.recipient, o.certificateId, o.qrCode, Images(o), env)
  }

  /** The whole certificate: the template stretched over the canvas, then
      the fields. */
  function CertificateCommands(o: GenerationOptions, env: Environment): seq<DrawCommand> {
    [DrawImage(TemplateImage, 0.0, 0.0, CanvasWidth(o), CanvasHeight(o))] + FieldsCommands(o.fields, o, env)
  }

  lemma FieldsCommandsStep(fields: seq<Field>, i: nat, o: GenerationOptions, env: Environment)
    requires i < |fields|
    ensures FieldsCommands(fields[..i + 1], o, env) ==
            FieldsCommands(fields[..i], o, env) +
            FieldCommands(ScaledField(fields[i], ScaleOption(o), o.originalWidth, o.originalHeight),
                          o.recipient, o.certificateId, o.qrCode, Images(o), env)
  {
    assert fields[..i + 1][..i] == fields[..i];
  }

  const NoContextError := "Could not get canvas context"

  /** `generateCertificateCanvas`. */
  method GenerateCertificateCanvas(o: GenerationOptions, env: Environment) returns (r: Result<Canvas>)
    ensures !env.contextAvailable ==> r == Err(NoContextError)
    ensures env.contextAvailable ==> r.Ok? && fresh(r.value)
    ensures r.Ok? ==> r.value.width == CanvasWidth(o) && r.value.height == CanvasHeight(o)
    ensures r.Ok? ==> r.value.commands == CertificateCommands(o, env)
    ensures r.Ok? ==> r.value.state == InitialState && r.value.saved == []
  {
    var canvas := new Canvas();
    if !env.contextAvailable {
      return Err(NoContextError);
    }
    canvas.width := CanvasWidth(o);
    canvas.height := CanvasHeight(o);
    canvas.DrawImageAt(TemplateImage, 0.0, 0.0, CanvasWidth(o), CanvasHeight(o));
    RenderFields(canvas, o, env);
    r := Ok(canvas);
  }

  /** The loop over the fields: each one scaled, then rendered. */
  method RenderFields(canvas: Canvas, o: GenerationOptions, env: Environment)
    modifies canvas
    ensures canvas.commands == old(canvas.commands) + FieldsCommands(o.fields, o, env)
    ensures canvas.state == old(canvas.state) && canvas.saved == old(canvas.saved)
    ensures canvas.width == old(canvas.width) && canvas.height == old(canvas.height)
  {
    var i := 0;
    ghost var drawn: seq<DrawCommand> := [];
    while i < |o.fields|
      invariant 0 <= i <= |o.fields|
      invariant drawn == FieldsCommands(o.fields[..i], o, env)
      invariant canvas.commands == old(canvas.commands) + drawn
      invariant canvas.state == old(canvas.state) && canvas.saved == old(canvas.saved)
      invariant canvas.width == old(canvas.width) && canvas.height == old(canvas.height)
    {
      FieldsCommandsStep(o.fields, i, o, env);
      var scaledField := ScaledField(o.fields[i], ScaleOption(o), o.originalWidth, o.originalHeight);
      ghost var next := FieldCommands(scaledField, o.recipient, o.certificateId, o.qrCode, Images(o), env);
      RenderField(canvas, scaledField, o.recipient, o.certificateId, o.qrCode, Images(o), env);
      AppendAssoc(old(canvas.commands), drawn, next);
      drawn := drawn + next;
      i := i + 1;
    }
    assert o.fields[..i] == o.fields;
  }

  lemma AppendAssoc(a: seq<DrawCommand>, b: seq<DrawCommand>, c: seq<DrawCommand>)
    ensures (a + b) + c == a + (b + c)
  {
  }

  /** `generateQRCodeForCertificate`: a QR code of the verification link,
      `toDataUrl` being the QR library and `origin` the page's origin. */
  function QrCodeForCertificate(certificateId: string, width: real, height: real, origin: Option<string>,
                                toDataUrl: (string, Qr.EffectiveOptions) -> Option<string>): (r: Result<string>)
    ensures var asked := toDataUrl(Qr.VerificationUrl(origin, certificateId),
                                   Qr.EffectiveOptions(width, height, Qr.DefaultColor, 1.0, Qr.LevelM));
            (r.Ok? <==> asked.Some?) && (r.Ok? ==> r.value == asked.value) && (r.Err? ==> r.error == Qr.QrCodeError)
  {
    Qr.GenerateQrCode(Qr.VerificationUrl(origin, certificateId),
                      Qr.QrOptions(Some(width), Some(height), Some(Qr.QrColor(Some("#000000"), Some("#FFFFFF"))), Some(1.0), Some(Qr.LevelM)),
                      toDataUrl)
  }

  // ---- What the wrap produces

  /** The lines joined back together. */
  function Concat(lines: seq<string>): string {
    if lines == [] then "" else Concat(lines[..|lines| - 1]) + lines[|lines| - 1]
  }

  /** Every word followed by a space. */
  function Spaced(words: seq<string>): string {
    if words == [] then "" else Spaced(words[..|words| - 1]) + words[|words| - 1] + " "
  }

  /** A drawn line ends with the space its last word brought, and either
      fits the field's width or holds a single word too wide on its own. */
  predicate GoodLine(line: string, font: Font, maxWidth: real, measure: (Font, string) -> real) {
    line != "" && line[|line| - 1] == ' ' &&
    (measure(font, line) <= maxWidth || ' ' !in line[..|line| - 1])
  }

  predicate NoSpaces(words: seq<string>) {
    forall k :: 0 <= k < |words| ==> ' ' !in words[k]
  }

  /** The line being built is empty only before the first word, and the
      lines drawn so far are fewer than the words. */
  lemma {:induction false} WrapCounts(words: seq<string>, font: Font, maxWidth: real, measure: (Font, string) -> real)
    ensures var w := WrapWords(words, font, maxWidth, measure);
            (words == [] <==> w.line == "") && (words == [] || |w.flushed| < |words|)
  {
    if words != [] {
      WrapCounts(words[..|words| - 1], font, maxWidth, measure);
    }
  }

  /** No word is lost, duplicated or reordered. */
  lemma {:induction false} WrapKeepsWords(words: seq<string>, font: Font, maxWidth: real, measure: (Font, string) -> real)
    ensures var w := WrapWords(words, font, maxWidth, measure);
            Concat(w.flushed) + w.line == Spaced(words)
  {
    if words != [] {
      var init := words[..|words| - 1];
      WrapKeepsWords(init, font, maxWidth, measure);
      var before := WrapWords(init, font, maxWidth, measure);
      var w := WrapWords(words, font, maxWidth, measure);
      if w.flushed != before.flushed {
        assert w.flushed == before.flushed + [before.line];
        assert w.flushed[..|w.flushed| - 1] == before.flushed;
      }
    }
  }

  /** Every line, drawn or being built, is good. */
  lemma {:induction false} WrapLinesGood(words: seq<string>, font: Font, maxWidth: real, measure: (Font, string) -> real)
    requires NoSpaces(words)
    ensures var w := WrapWords(words, font, maxWidth, measure);
            (w.line == "" || GoodLine(w.line, font, maxWidth, measure)) &&
            (forall k :: 0 <= k < |w.flushed| ==> GoodLine(w.flushed[k], font, maxWidth, measure))
  {
    if words != [] {
      var init := words[..|words| - 1];
      var word := words[|words| - 1];
      assert NoSpaces(init) by {
        assert forall k :: 0 <= k < |init| ==> init[k] == words[k];
      }
      assert ' ' !in word;
      WrapLinesGood(init, font, maxWidth, measure);
      var before := WrapWords(init, font, maxWidth, measure);
      var testLine := before.line + word + " ";
      if measure(font, testLine) > maxWidth && before.line != "" {
        assert (word + " ")[..|word|] == word;
      } else if before.line == "" {
        assert testLine == word + " ";
        assert testLine[..|word|] == word;
      }
    }
  }

  lemma {:induction false} JoinSnoc(parts: seq<string>, last: string, sep: string)
    requires parts != []
    ensures Join(parts + [last], sep) == Join(parts, sep) + sep + last
  {
    if |parts| == 1 {
      assert parts + [last] == [parts[0], last];
    } else {
      assert (parts + [last])[1..] == parts[1..] + [last];
      JoinSnoc(parts[1..], last, sep);
    }
  }

  lemma {:induction false} SpacedIsJoin(words: seq<string>)
    requires words != []
    ensures Spaced(words) == Join(words, " ") + " "
  {
    var init := words[..|words| - 1];
    if init != [] {
      SpacedIsJoin(init);
      JoinSnoc(init, words[|words| - 1], " ");
      assert init + [words[|words| - 1]] == words;
    }
  }

  /** A text or date field is drawn as at least one line and never more
      lines than it has words. */
  lemma LinesCount(value: string, font: Font, maxWidth: real, measure: (Font, string) -> real)
    ensures 1 <= |Lines(value, font, maxWidth, measure)| <= |Split(value, ' ')|
  {
    WrapCounts(Split(value, ' '), font, maxWidth, measure);
  }

  /** Every line drawn is good. */
  lemma LinesGood(value: string, font: Font, maxWidth: real, measure: (Font, string) -> real)
    ensures var lines := Lines(value, font, maxWidth, measure);
            forall k :: 0 <= k < |lines| ==> GoodLine(lines[k], font, maxWidth, measure)
  {
    var words := Split(value, ' ');
    assert NoSpaces(words);
    WrapCounts(words, font, maxWidth, measure);
    WrapLinesGood(words, font, maxWidth, measure);
  }

  /** The lines together are exactly the value, with a trailing space. */
  lemma LinesKeepValue(value: string, font: Font, maxWidth: real, measure: (Font, string) -> real)
    ensures Concat(Lines(value, font, maxWidth, measure)) == value + " "
  {
    var words := Split(value, ' ');
    WrapKeepsWords(words, font, maxWidth, measure);
    var w := WrapWords(words, font, maxWidth, measure);
    var lines := w.flushed + [w.line];
    assert lines[..|lines| - 1] == w.flushed;
    assert Concat(lines) == Spaced(words);
    SpacedIsJoin(words);
    JoinSplit(value, ' ');
    assert [' '] == " ";
  }

  /** The lines of a text or date field. */
  function FieldLines(f: Field, recipient: map<string, string>, env: Environment): seq<string> {
    Lines(FieldValue(recipient, f.id), FieldFont(f), f.width, env.measure)
  }

  /** A text or date field draws the lines of its recipient's value: at
      least one row, row `k` at the field's left edge and `k * 1.2 *
      fontSize` below its top, in the field's colour and font (what the
      lines hold: `LinesKeepValue`, `LinesGood`). */
  lemma TextFieldLayout(f: Field, recipient: map<string, string>, certificateId: string, qrCode: string,
                        images: seq<SignatureImage>, env: Environment)
    requires f.kind == Text || f.kind == Date
    ensures FieldCommands(f, recipient, certificateId, qrCode, images, env) == TextRows(f, FieldLines(f, recipient, env), FontSize(f) * 1.2)
    ensures |FieldCommands(f, recipient, certificateId, qrCode, images, env)| >= 1
  {
    LinesCount(FieldValue(recipient, f.id), FieldFont(f), f.width, env.measure);
  }

  // ---- Signatures and QR codes

  /** For a field with a positive size, the signature box lies inside the
      field, fills its width or its height, and keeps the image's shape. */
  lemma LetterboxFits(x: real, y: real, width: real, height: real, imageWidth: Positive, imageHeight: Positive)
    requires width > 0.0 && height > 0.0
    ensures var r := Letterbox(x, y, width, height, imageWidth, imageHeight);
            0.0 < r.width <= width && 0.0 < r.height <= height &&
            (r.width == width || r.height == height) &&
            x <= r.x && r.x + r.width <= x + width &&
            y <= r.y && r.y + r.height <= y + height
  {
    var aspect := imageWidth / imageHeight;
    assert aspect > 0.0;
    if width / aspect > height {
      assert width > height * aspect by {
        assert (width / aspect) * aspect == width;
        MulMonotone(aspect, height, width / aspect);
      }
    } else {
      assert width / aspect > 0.0;
    }
  }

  /** The signature field's three outcomes: a found, loadable image is drawn
      once, letterboxed in the field; a found image that fails to load
      draws nothing; no chosen image, or an id with no image, draws the
      word "Signature" at the field's corner. */
  lemma SignatureFieldOutcomes(f: Field, recipient: map<string, string>, certificateId: string, qrCode: string,
                               images: seq<SignatureImage>, env: Environment)
    requires f.kind == Signature
    ensures var cmds := FieldCommands(f, recipient, certificateId, qrCode, images, env);
            var sig := if Truthy(f.signatureImageId) then FindSignature(images, f.signatureImageId.value) else None;
            (sig.None? ==> cmds == [FillText("Signature", f.x, f.y, FieldColor(f), FieldFont(f), AlignLeftEdge, BaselineTop)]) &&
            (sig.Some? && env.load(sig.value.dataUrl).LoadError? ==> cmds == []) &&
            (sig.Some? && env.load(sig.value.dataUrl).Loaded? ==>
               |cmds| == 1 && cmds[0].DrawImage? && cmds[0].source == Url(sig.value.dataUrl) &&
               sig.value.id == f.signatureImageId.value &&
               (f.width > 0.0 && f.height > 0.0 ==>
                  f.x <= cmds[0].x && cmds[0].x + cmds[0].width <= f.x + f.width &&
                  f.y <= cmds[0].y && cmds[0].y + cmds[0].height <= f.y + f.height))
  {
    if Truthy(f.signatureImageId) {
      var sig := FindSignature(images, f.signatureImageId.value);
      if sig.Some? && env.load(sig.value.dataUrl).Loaded? {
        var l := env.load(sig.value.dataUrl);
        if f.width > 0.0 && f.height > 0.0 {
          LetterboxFits(f.x, f.y, f.width, f.height, l.naturalWidth, l.naturalHeight);
        }
      }
    }
  }

  /** A QR field draws the QR image over exactly its box when there is a QR
      data URL that loads; otherwise a filled and outlined box over exactly
      its box with "QR Code" centred in it. */
  lemma QrFieldOutcomes(f: Field, recipient: map<string, string>, certificateId: string, qrCode: string,
                        images: seq<SignatureImage>, env: Environment)
    requires f.kind == Qr
    ensures var cmds := FieldCommands(f, recipient, certificateId, qrCode, images, env);
            (qrCode != "" && env.load(qrCode).Loaded? ==> cmds == [DrawImage(Url(qrCode), f.x, f.y, f.width, f.height)]) &&
            (qrCode == "" || env.load(qrCode).LoadError? ==>
               |cmds| == 3 &&
               cmds[0] == FillRect(f.x, f.y, f.width, f.height, PlaceholderFill) &&
               cmds[1] == StrokeRect(f.x, f.y, f.width, f.height, PlaceholderInk) &&
               cmds[2].FillText? && cmds[2].text == "QR Code" && cmds[2].align == AlignCentre &&
               cmds[2].baseline == BaselineMiddle &&
               cmds[2].x - f.x == (f.x + f.width) - cmds[2].x &&
               cmds[2].y - f.y == (f.y + f.height) - cmds[2].y)
  {
  }

  /** A certificate-id field draws the certificate id, not the recipient's
      value, at the field's corner. */
  lemma CertificateIdFieldDrawsId(f: Field, recipient: map<string, string>, certificateId: string, qrCode: string,
                                  images: seq<SignatureImage>, env: Environment)
    requires f.kind == CertificateId
    ensures FieldCommands(f, recipient, certificateId, qrCode, images, env) ==
            [FillText(certificateId, f.x, f.y, FieldColor(f), FieldFont(f), AlignLeftEdge, BaselineTop)]
  {
  }

  // ---- The whole certificate

  predicate DrawsTemplate(c: DrawCommand) {
    c.DrawImage? && c.source == TemplateImage
  }

  lemma {:induction false} FieldsNeverDrawTemplate(fields: seq<Field>, o: GenerationOptions, env: Environment)
    ensures forall k :: 0 <= k < |FieldsCommands(fields, o, env)| ==> !DrawsTemplate(FieldsCommands(fields, o, env)[k])
  {
    if fields != [] {
      FieldsNeverDrawTemplate(fields[..|fields| - 1], o, env);
    }
  }

  /** The template is drawn first, over the whole canvas, and never again:
      every field is painted on top of it. */
  lemma TemplateDrawnFirstAndOnce(o: GenerationOptions, env: Environment)
    ensures var cmds := CertificateCommands(o, env);
            cmds[0] == DrawImage(TemplateImage, 0.0, 0.0, CanvasWidth(o), CanvasHeight(o)) &&
            forall k :: 1 <= k < |cmds| ==> !DrawsTemplate(cmds[k])
  {
    FieldsNeverDrawTemplate(o.fields, o, env);
  }

  /** With a non-zero scale and both original dimensions the field's
      geometry is multiplied by the scale; without an original dimension it
      is used as stored, whatever the scale. */
  lemma ScaledFieldGeometry(f: Field, scale: real, originalWidth: Option<real>, originalHeight: Option<real>)
    ensures var r := ScaledField(f, scale, originalWidth, originalHeight);
            (scale != 0.0 && NumberTruthy(originalWidth) && NumberTruthy(originalHeight) ==>
               Rect(r.x, r.y, r.width, r.height) == ScaleCoordinates(f.x, f.y, f.width, f.height, scale)) &&
            (!NumberTruthy(originalWidth) || !NumberTruthy(originalHeight) ==> r == f)
  {
  }

  /** The export page's call: scale 1 draws every field exactly where it is
      stored. */
  lemma ScaleOneKeepsFields(f: Field, originalWidth: Option<real>, originalHeight: Option<real>)
    ensures ScaledField(f, 1.0, originalWidth, originalHeight) == f
  {
  }
}
