/** The canvas editor: template loading from a data URL, the display scale,
    the geometry handlers for dragging and resizing fields, the captions a
    field shows, the preview QR codes, and the right-click rename/delete
    session. */
module Editor {
  import opened Common
  import opened Scaling
  import opened Fields
  import Base64
  import FileUtils
  import Qr
  import UriEncoding
  import Renderer

  // ---- Loading the template

  /** What is handed to the PDF renderer: decoded bytes, or the stored value
      passed on as it is when it is not a data URL. */
  datatype PdfData = PdfBytes(bytes: seq<Base64.Byte>) | PassedThrough(data: string)

  /** The payload of a `data:` URL, `data.split(",")[1]`; `None` stands for
      `undefined` when there is no comma. */
  function DataUrlPayload(data: string): (r: Option<string>)
    ensures r.Some? <==> ',' in data
  {
    var pieces := Split(data, ',');
    SplitHasSecondPiece(data, ',');
    if |pieces| >= 2 then Some(pieces[1]) else None
  }

  /** `atob(undefined)` decodes the nine characters `"undefined"`, which
      is not valid base64 (nine is one more than a multiple of four). */
  function AtobOfUndefined(): (r: Result<string>)
    ensures r == Err(Base64.AtobError)
  {
    Base64.Atob("undefined")
  }

  /** How the editor turns the stored template into PDF input. */
  function TemplateBytes(data: string): (r: Result<PdfData>)
    ensures !StartsWith(data, "data:") ==> r == Ok(PassedThrough(data))
    ensures StartsWith(data, "data:") && ',' !in data ==> r == Err(Base64.AtobError)
    ensures (StartsWith(data, "data:") && ',' in data ==>
               |Split(data, ',')| >= 2 &&
               var payload := Split(data, ',')[1];
               (r.Ok? <==> Base64.DecodeBytes(payload).Some?) &&
               (r.Ok? ==> r == Ok(PdfBytes(Base64.DecodeBytes(payload).value))) &&
               (r.Err? ==> r.error == Base64.AtobError))
  {
    SplitHasSecondPiece(data, ',');
    if !StartsWith(data, "data:") then Ok(PassedThrough(data))
    else
      var decoded := match DataUrlPayload(data)
        case Some(payload) => Base64.Atob(payload)
        case None => AtobOfUndefined();
      match decoded
      case Err(e) => Err(e)
      case Ok(binary) => Ok(PdfBytes(Base64.CharCodes(binary)))
  }

  /** The decoding loop of `loadPdfAsImage`: a byte array the length of the
      binary string, byte `i` being `charCodeAt(i)`. */
  method DecodeTemplateData(data: string) returns (r: Result<PdfData>)
    ensures r == TemplateBytes(data)
  {
    if !StartsWith(data, "data:") {
      return Ok(PassedThrough(data));
    }
    var payload := DataUrlPayload(data);
    var decoded := if payload.Some? then Base64.Atob(payload.value) else AtobOfUndefined();
    if decoded.Err? {
      return Err(decoded.error);
    }
    var binary := decoded.value;
    var bytes := new Base64.Byte[|binary|];
    var i := 0;
    while i < |binary|
      invariant 0 <= i <= |binary|
      invariant forall k :: 0 <= k < i ==> bytes[k] == binary[k] as int
    {
      bytes[i] := binary[i] as int;
      i := i + 1;
    }
    assert bytes[..] == Base64.CharCodes(binary);
    r := Ok(PdfBytes(bytes[..]));
  }

  lemma {:induction false} EncodedHasNoComma(b: seq<Base64.Byte>)
    ensures ',' !in Base64.EncodeBytes(b)
    decreases |b|
  {
    if |b| > 2 {
      EncodedHasNoComma(b[3..]);
    }
  }

  /** A data URL made by the upload step decodes back to the uploaded bytes,
      whenever the MIME type has no comma. */
  lemma UploadedTemplateDecodes(mimeType: string, bytes: seq<Base64.Byte>)
    requires ',' !in mimeType
    ensures TemplateBytes(FileUtils.DataUrl(mimeType, Base64.EncodeBytes(bytes))) == Ok(PdfBytes(bytes))
  {
    var enc := Base64.EncodeBytes(bytes);
    var pre := "data:" + mimeType + ";base64";
    var url := FileUtils.DataUrl(mimeType, enc);
    assert url == pre + [','] + enc;
    assert ',' !in pre by {
      assert forall i :: 5 <= i < 5 + |mimeType| ==> pre[i] == mimeType[i - 5];
    }
    SplitSecondPiece(pre, ',', enc);
    EncodedHasNoComma(bytes);
    Qr.SplitWithoutSeparator(enc, ',');
    assert url[|pre|] == ',';
    Base64.DecodeEncode(bytes);
    Base64.CharCodesFromCharCodes(bytes);
  }

  // ---- The display scale

  /** The scale the resize handler sets: the smaller of the two box-to-stage
      ratios. */
  function ResizeScale(containerWidth: real, containerHeight: real, stageWidth: real, stageHeight: real): (r: real)
    requires stageWidth != 0.0 && stageHeight != 0.0
    ensures r <= containerWidth / stageWidth && r <= containerHeight / stageHeight
    ensures r == containerWidth / stageWidth || r == containerHeight / stageHeight
  {
    Min(containerWidth / stageWidth, containerHeight / stageHeight)
  }

  /** The scale after a window resize is the one the load step computed with
      `calculateScaling`: both paths agree. */
  lemma ResizeAgreesWithLoad(cw: real, ch: real, sw: real, sh: real)
    requires sw != 0.0 && sh != 0.0
    ensures ResizeScale(cw, ch, sw, sh) == CalculateScaling(sw, sh, cw, ch).scale
  {
  }

  // ---- Geometry handlers

  /** Where a field is drawn inside the stage: its rectangle times the scale. */
  function DisplayRect(f: Field, scale: real): (r: Rect)
    ensures r == ScaleCoordinates(f.x, f.y, f.width, f.height, scale)
  {
    ScaleCoordinates(f.x, f.y, f.width, f.height, scale)
  }

  /** `handleFieldDragEnd`: the node's position divided by the scale. */
  function DragEnd(nodeX: real, nodeY: real, scale: real): (r: Update)
    requires scale != 0.0
    ensures r.Move? && r.x * scale == nodeX && r.y * scale == nodeY
  {
    Move(nodeX / scale, nodeY / scale)
  }

  /** A drag that ends where the field is drawn leaves the field unchanged. */
  lemma DragInPlaceKeepsField(f: Field, scale: real)
    requires scale != 0.0
    ensures var d := DisplayRect(f, scale); Apply(f, DragEnd(d.x, d.y, scale)) == f
  {
    UnscaleScaleRoundTrip(f.x, f.y, f.width, f.height, scale);
  }

  const MinFieldWidth: real := 50.0
  const MinFieldHeight: real := 20.0

  /** `handleFieldResize`: the transformer's stretch factors applied to the
      field's size, floored at 50 by 20. */
  function ResizeUpdate(f: Field, scaleX: real, scaleY: real): (r: Update)
    ensures r.Resize?
    ensures r.width >= MinFieldWidth && r.height >= MinFieldHeight
    ensures f.width * scaleX >= MinFieldWidth ==> r.width == f.width * scaleX
    ensures f.height * scaleY >= MinFieldHeight ==> r.height == f.height * scaleY
    ensures f.width * scaleX < MinFieldWidth ==> r.width == MinFieldWidth
    ensures f.height * scaleY < MinFieldHeight ==> r.height == MinFieldHeight
  {
    Resize(Max(MinFieldWidth, f.width * scaleX), Max(MinFieldHeight, f.height * scaleY))
  }

  /** An unstretched resize of a field at least 50 by 20 changes nothing. */
  lemma UnitResizeKeepsField(f: Field)
    requires f.width >= MinFieldWidth && f.height >= MinFieldHeight
    ensures Apply(f, ResizeUpdate(f, 1.0, 1.0)) == f
  {
  }

  /** The transformer's `boundBoxFunc`: a box narrower than 50 or lower than
      20 (in absolute value) is refused and the old box kept. */
  function BoundBox(oldBox: Rect, newBox: Rect): (r: Rect)
    ensures (Abs(newBox.width) < MinFieldWidth || Abs(newBox.height) < MinFieldHeight) ==> r == oldBox
    ensures (Abs(newBox.width) >= MinFieldWidth && Abs(newBox.height) >= MinFieldHeight) ==> r == newBox
  {
    if Abs(newBox.width) < MinFieldWidth || Abs(newBox.height) < MinFieldHeight then oldBox else newBox
  }

  predicate BigEnough(b: Rect) {
    Abs(b.width) >= MinFieldWidth && Abs(b.height) >= MinFieldHeight
  }

  /** Once a box is big enough, every sequence of transformer steps keeps
      it big enough. */
  lemma {:induction false} BoundBoxKeepsMinimum(start: Rect, proposals: seq<Rect>)
    requires BigEnough(start)
    ensures BigEnough(ApplyBoxes(start, proposals))
    decreases |proposals|
  {
    if proposals != [] {
      BoundBoxKeepsMinimum(BoundBox(start, proposals[0]), proposals[1..]);
    }
  }

  function ApplyBoxes(start: Rect, proposals: seq<Rect>): Rect
    decreases |proposals|
  {
    if proposals == [] then start else ApplyBoxes(BoundBox(start, proposals[0]), proposals[1..])
  }

  // ---- Captions

  /** `getFieldLabel`: the display name of a field type string. */
  function GetFieldLabel(kind: string): (r: string)
    ensures r != ""
    ensures r == "Field" <==> kind !in {"text", "date", "signature", "certificateId", "qr"}
  {
    match kind
    case "text" => "Text Field"
    case "date" => "Date Field"
    case "signature" => "Signature Field"
    case "certificateId" => "Certificate ID"
    case "qr" => "QR Code"
    case _ => "Field"
  }

  /** Every field type has a name of its own. */
  lemma FieldLabelsDistinct(a: FieldKind, b: FieldKind)
    requires a != b
    ensures GetFieldLabel(KindName(a)) != GetFieldLabel(KindName(b))
    ensures GetFieldLabel(KindName(a)) != "Field"
  {
  }

  /** The caption a field shows in editing mode when no image stands in
      for it. */
  function EditorCaption(f: Field): (r: string)
    ensures r != ""
    ensures (f.kind == Text || f.kind == Date || f.kind == Signature) && Truthy(f.placeholder) ==> r == f.placeholder.value
    ensures f.kind == CertificateId ==> r == Or(f.fieldLabel, "Certificate ID")
    ensures f.kind == Qr ==> r == "QR Code"
  {
    match f.kind
    case Text => Or(f.placeholder, Or(f.fieldLabel, GetFieldLabel(KindName(f.kind))))
    case Date => Or(f.placeholder, Or(f.fieldLabel, GetFieldLabel(KindName(f.kind))))
    case CertificateId => Or(f.fieldLabel, GetFieldLabel(KindName(f.kind)))
    case Signature => Or(f.placeholder, Or(f.fieldLabel, "Signature"))
    case Qr => "QR Code"
  }

  /** The caption a field shows in preview mode. */
  function PreviewCaption(f: Field): (r: string)
    ensures r != ""
    ensures Truthy(f.placeholder) ==> r == f.placeholder.value || f.kind == Qr
    ensures f.kind == Qr ==> r == "QR"
  {
    match f.kind
    case Text => Or(f.placeholder, Or(f.fieldLabel, "Sample Text"))
    case Date => Or(f.placeholder, Or(f.fieldLabel, "2024-01-01"))
    case Signature => Or(f.placeholder, Or(f.fieldLabel, "Signature"))
    case CertificateId => Or(f.placeholder, Or(f.fieldLabel, "CERT-123456"))
    case Qr => "QR"
  }

  /** A certificate-id field's caption in editing mode ignores its
      placeholder, while the preview shows it. */
  lemma CertificateIdPlaceholderOnlyInPreview(f: Field, p: string)
    requires f.kind == CertificateId && p != ""
    ensures EditorCaption(f.(placeholder := Some(p))) == EditorCaption(f)
    ensures PreviewCaption(f.(placeholder := Some(p))) == p
  {
  }

  /** The two modes differ only in their last fallback: a text or date field
      with a placeholder or a label shows the same caption in both. */
  lemma CaptionsAgreeWhenNamed(f: Field)
    requires f.kind == Text || f.kind == Date || f.kind == Signature
    requires Truthy(f.placeholder) || Truthy(f.fieldLabel)
    ensures EditorCaption(f) == PreviewCaption(f)
  {
  }

  /** The font size a field is drawn with on the canvas: its own size, or 12
      when it has none (or 0), times the display scale. */
  function CanvasFontSize(f: Field, scale: real): (r: real)
    ensures f.fontSize.Some? && f.fontSize.value != 0.0 ==> r == f.fontSize.value * scale
    ensures (f.fontSize.None? || f.fontSize.value == 0.0) ==> r == 12.0 * scale
  {
    (if f.fontSize.Some? && f.fontSize.value != 0.0 then f.fontSize.value else 12.0) * scale
  }

  /** A field without a font size shows at 12 on the canvas at scale 1 but
      is exported at 16. */
  lemma UnsizedFieldPreviewSmallerThanExport(f: Field)
    requires f.fontSize.None?
    ensures CanvasFontSize(f, 1.0) == 12.0 && Renderer.FontSize(f) == 16.0
  {
  }

  // ---- Preview QR codes

  /** `substr(start, length)` for a non-negative start. */
  function Substr(s: string, start: nat, length: nat): (r: string)
    ensures |r| <= length
    ensures start >= |s| ==> r == ""
    ensures start < |s| ==> r == s[start..Min(|s| as real, (start + length) as real).Floor]
  {
    if start >= |s| then "" else s[start..if start + length <= |s| then start + length else |s|]
  }

  /** The sample id of a preview QR code: `now` is `Date.now()` and
      `random` is `Math.random().toString(36)`. */
  function SampleId(now: nat, random: string): (r: string)
    ensures StartsWith(r, "CERT-")
    ensures |r| <= 6 + |NatToString(now)| + 9
  {
    "CERT-" + NatToString(now) + "-" + ToUpper(Substr(random, 2, 9))
  }

  predicate IsBase36Digit(c: char) {
    ('0' <= c <= '9') || ('a' <= c <= 'z')
  }

  /** When the random fraction's digits are base-36 digits, the sample id
      needs no escaping, so the preview link carries it literally. */
  lemma SampleIdNeedsNoEscaping(now: nat, random: string)
    requires forall i :: 2 <= i < |random| ==> IsBase36Digit(random[i])
    ensures UriEncoding.EncodeUriComponent(SampleId(now, random)) == SampleId(now, random)
  {
    var digits := NatToString(now);
    var tail := ToUpper(Substr(random, 2, 9));
    var id := SampleId(now, random);
    assert id == "CERT-" + digits + "-" + tail;
    assert forall i :: 0 <= i < |tail| ==> UriEncoding.IsIdChar(tail[i]) by {
      forall i | 0 <= i < |tail| ensures UriEncoding.IsIdChar(tail[i]) {
        assert Substr(random, 2, 9)[i] == random[2 + i];
      }
    }
    assert forall i :: 0 <= i < |id| ==> UriEncoding.IsIdChar(id[i]) by {
      forall i | 0 <= i < |id| ensures UriEncoding.IsIdChar(id[i]) {
        if i < 5 {
        } else if i < 5 + |digits| {
          assert id[i] == digits[i - 5];
        } else if i == 5 + |digits| {
        } else {
          assert id[i] == tail[i - 6 - |digits|];
        }
      }
    }
    UriEncoding.EncodeIdIsIdentity(id);
  }

  /** The options a preview QR code is requested with: the field's size,
      black on white, margin 1. */
  function PreviewQrOptions(f: Field): (r: Qr.QrOptions)
    ensures Qr.Merge(r) == Qr.EffectiveOptions(f.width, f.height, Qr.DefaultColor, 1.0, Qr.LevelM)
  {
    Qr.QrOptions(Some(f.width), Some(f.height), Some(Qr.QrColor(Some("#000000"), Some("#FFFFFF"))), Some(1.0), None)
  }

  /** The preview QR code of one field. */
  function PreviewQr(f: Field, now: nat, random: string, origin: Option<string>,
                     toDataUrl: (string, Qr.EffectiveOptions) -> Option<string>): Result<string> {
    Qr.GenerateQrCode(Qr.VerificationUrl(origin, SampleId(now, random)), PreviewQrOptions(f), toDataUrl)
  }

  /** The outcome of each field's preview QR code, in field order. */
  function PreviewCodes(fields: seq<Field>, clocks: seq<nat>, randoms: seq<string>, origin: Option<string>,
                        toDataUrl: (string, Qr.EffectiveOptions) -> Option<string>): (r: seq<Result<string>>)
    requires |clocks| == |fields| && |randoms| == |fields|
    ensures |r| == |fields|
    ensures forall i :: 0 <= i < |fields| ==> r[i] == PreviewQr(fields[i], clocks[i], randoms[i], origin, toDataUrl)
  {
    seq(|fields|, i requires 0 <= i < |fields| => PreviewQr(fields[i], clocks[i], randoms[i], origin, toDataUrl))
  }

  /** The images map after the fields are processed in order: each QR field
      whose code was generated is set under its id, a failure is skipped. */
  function QrImages(fields: seq<Field>, codes: seq<Result<string>>): map<string, string>
    requires |codes| == |fields|
    decreases |fields|
  {
    if fields == [] then map[]
    else
      var n := |fields| - 1;
      var m := QrImages(fields[..n], codes[..n]);
      if fields[n].kind == Qr && codes[n].Ok? then m[fields[n].id := codes[n].value] else m
  }

  /** One more field: its code is set under its id when it is a QR field
      whose code was generated. */
  lemma QrImagesStep(fields: seq<Field>, codes: seq<Result<string>>, i: nat)
    requires |codes| == |fields| && i < |fields|
    ensures var m := QrImages(fields[..i], codes[..i]);
            QrImages(fields[..i + 1], codes[..i + 1]) ==
              if fields[i].kind == Qr && codes[i].Ok? then m[fields[i].id := codes[i].value] else m
  {
    assert fields[..i + 1][..i] == fields[..i];
    assert codes[..i + 1][..i] == codes[..i];
  }

  /** The preview map holds exactly the ids of QR fields whose code was
      generated. */
  lemma {:induction false} QrImagesKeys(fields: seq<Field>, codes: seq<Result<string>>, k: string)
    requires |codes| == |fields|
    ensures (k in QrImages(fields, codes) <==>
               exists i :: 0 <= i < |fields| && fields[i].id == k && fields[i].kind == Qr && codes[i].Ok?)
    decreases |fields|
  {
    if fields != [] {
      var n := |fields| - 1;
      QrImagesKeys(fields[..n], codes[..n], k);
      assert forall i :: 0 <= i < n ==> fields[..n][i] == fields[i] && codes[..n][i] == codes[i];
    }
  }

  /** Each image in the preview map is the generated code of a QR field
      with that id. */
  lemma {:induction false} QrImagesValues(fields: seq<Field>, codes: seq<Result<string>>, k: string)
    requires |codes| == |fields|
    requires k in QrImages(fields, codes)
    ensures exists i :: 0 <= i < |fields| && fields[i].id == k && fields[i].kind == Qr &&
                        codes[i] == Ok(QrImages(fields, codes)[k])
    decreases |fields|
  {
    var n := |fields| - 1;
    if fields[n].kind == Qr && codes[n].Ok? && fields[n].id == k {
      assert codes[n] == Ok(QrImages(fields, codes)[k]);
    } else {
      QrImagesValues(fields[..n], codes[..n], k);
      var i :| 0 <= i < n && fields[..n][i].id == k && fields[..n][i].kind == Qr &&
               codes[..n][i] == Ok(QrImages(fields[..n], codes[..n])[k]);
      assert fields[i] == fields[..n][i] && codes[i] == codes[..n][i];
    }
  }

  /** The preview effect: nothing happens for an empty field list,
      otherwise the QR fields are processed one after another. */
  method GenerateQrPreviews(fields: seq<Field>, clocks: seq<nat>, randoms: seq<string>, origin: Option<string>,
                            toDataUrl: (string, Qr.EffectiveOptions) -> Option<string>)
    returns (r: Option<map<string, string>>)
    requires |clocks| == |fields| && |randoms| == |fields|
    ensures fields == [] ==> r == None
    ensures fields != [] ==> r == Some(QrImages(fields, PreviewCodes(fields, clocks, randoms, origin, toDataUrl)))
  {
    if |fields| == 0 {
      return None;
    }
    ghost var codes := PreviewCodes(fields, clocks, randoms, origin, toDataUrl);
    var images := map[];
    var i := 0;
    while i < |fields|
      invariant 0 <= i <= |fields|
      invariant images == QrImages(fields[..i], codes[..i])
    {
      QrImagesStep(fields, codes, i);
      var f := fields[i];
      if f.kind == Qr {
        var code := PreviewQr(f, clocks[i], randoms[i], origin, toDataUrl);
        assert code == codes[i];
        if code.Ok? {
          images := images[f.id := code.value];
        }
      }
      i := i + 1;
    }
    assert fields[..i] == fields && codes[..i] == codes;
    r := Some(images);
  }

  // ---- On-screen position

  /** Where a field's left edge lands on screen, as a fraction of the
      template's on-screen width. The stage itself is scaled by
      `scale * zoom`, and the field is drawn at `x * scale` inside it. */
  function OnScreenRelativeX(f: Field, stageWidth: real, scale: real, zoom: real): (r: real)
    requires stageWidth > 0.0 && scale > 0.0 && zoom > 0.0
  {
    (DisplayRect(f, scale).x * (scale * zoom)) / (stageWidth * (scale * zoom))
  }

  /** The same fraction when the field is drawn at `x` inside the scaled
      stage, so that the stage transform alone maps template pixels to
      screen pixels. */
  function CorrectedOnScreenRelativeX(f: Field, stageWidth: real, scale: real, zoom: real): (r: real)
    requires stageWidth > 0.0 && scale > 0.0 && zoom > 0.0
    ensures r == f.x / stageWidth
  {
    CancelCommonFactor(f.x, stageWidth, scale * zoom);
    (f.x * (scale * zoom)) / (stageWidth * (scale * zoom))
  }

  /** As drawn, a field at x = 100 on an 800-wide template at display scale
      0.5 shows at one sixteenth of the template's width, not one eighth as
      the exported certificate places it. */
  lemma FieldDrawnDoubleScaled(f: Field)
    requires f.x == 100.0
    ensures OnScreenRelativeX(f, 800.0, 0.5, 1.0) == 0.0625
    ensures f.x / 800.0 == 0.125
  {
  }

  /** As drawn, the on-screen fraction is the exported one only at scale 1
      (for a field off the left edge). */
  lemma OnScreenMatchesExportOnlyAtUnitScale(f: Field, stageWidth: real, scale: real, zoom: real)
    requires stageWidth > 0.0 && scale > 0.0 && zoom > 0.0 && f.x != 0.0
    ensures OnScreenRelativeX(f, stageWidth, scale, zoom) == f.x / stageWidth <==> scale == 1.0
  {
    var sz := scale * zoom;
    PositiveProduct(scale, zoom);
    CancelCommonFactor(f.x * scale, stageWidth, sz);
    assert OnScreenRelativeX(f, stageWidth, scale, zoom) == (f.x * scale) / stageWidth;
    assert ((f.x * scale) / stageWidth) * stageWidth == f.x * scale;
    assert (f.x / stageWidth) * stageWidth == f.x;
    assert f.x * scale == f.x <==> f.x * (scale - 1.0) == 0.0;
  }

  /** The drag handler that goes with the corrected drawing: the node's
      position inside the stage is already in template pixels. */
  function CorrectedDragEnd(nodeX: real, nodeY: real): (r: Update)
    ensures r.Move? && r.x == nodeX && r.y == nodeY
  {
    Move(nodeX, nodeY)
  }

  /** With the corrected drawing a drag in place keeps the field, and the
      on-screen fraction equals the exported one for every scale and zoom. */
  lemma CorrectedDrawingAgreesWithExport(f: Field, stageWidth: real, scale: real, zoom: real)
    requires stageWidth > 0.0 && scale > 0.0 && zoom > 0.0
    ensures Apply(f, CorrectedDragEnd(f.x, f.y)) == f
    ensures CorrectedOnScreenRelativeX(f, stageWidth, scale, zoom) == f.x / stageWidth
  {
  }

  // ---- Rename and delete from the context menu

  /** The context-menu state of the editor and the callbacks it has made:
      updates handed to `onFieldUpdate`, ids to `onFieldDelete`, fields to
      `onFieldSelect`. `renameTarget` is the field the rename dialog was
      opened for, kept by the corrected flow. */
  class EditorSession {
    var contextMenuField: Option<Field>
    var isEditingFieldName: bool
    var editingFieldName: string
    var renameTarget: Option<Field>
    var updates: seq<(string, Update)>
    var deletions: seq<string>
    var selections: seq<Field>

    constructor()
      ensures contextMenuField == None && !isEditingFieldName && editingFieldName == ""
      ensures renameTarget == None && updates == [] && deletions == [] && selections == []
    {
      contextMenuField := None;
      isEditingFieldName := false;
      editingFieldName := "";
      renameTarget := None;
      updates := [];
      deletions := [];
      selections := [];
    }

    /** `handleFieldRightClick`: remembers the field and selects it. */
    method RightClick(f: Field)
      modifies this
      ensures contextMenuField == Some(f) && selections == old(selections) + [f]
      ensures isEditingFieldName == old(isEditingFieldName) && editingFieldName == old(editingFieldName)
      ensures renameTarget == old(renameTarget) && updates == old(updates) && deletions == old(deletions)
    {
      contextMenuField := Some(f);
      selections := selections + [f];
    }

    /** `handleDeleteField`: deletes the remembered field and forgets it. */
    method DeleteField()
      modifies this
      ensures old(contextMenuField).Some? ==> deletions == old(deletions) + [old(contextMenuField).value.id] && contextMenuField == None
      ensures old(contextMenuField).None? ==> deletions == old(deletions) && contextMenuField == None
      ensures isEditingFieldName == old(isEditingFieldName) && editingFieldName == old(editingFieldName)
      ensures renameTarget == old(renameTarget) && updates == old(updates) && selections == old(selections)
    {
      if contextMenuField.Some? {
        deletions := deletions + [contextMenuField.value.id];
        contextMenuField := None;
      }
    }

    /** `handleEditFieldName`: opens the dialog on the field's label (or its
        type's name) and forgets the remembered field; the corrected flow
        also keeps it as the rename target. */
    method EditFieldName()
      modifies this
      ensures (old(contextMenuField).Some? ==>
                 var f := old(contextMenuField).value;
                 isEditingFieldName && editingFieldName == Or(f.fieldLabel, GetFieldLabel(KindName(f.kind))) &&
                 contextMenuField == None && renameTarget == Some(f))
      ensures (old(contextMenuField).None? ==>
                 isEditingFieldName == old(isEditingFieldName) && editingFieldName == old(editingFieldName) &&
                 contextMenuField == None && renameTarget == old(renameTarget))
      ensures updates == old(updates) && deletions == old(deletions) && selections == old(selections)
    {
      if contextMenuField.Some? {
        var f := contextMenuField.value;
        editingFieldName := Or(f.fieldLabel, GetFieldLabel(KindName(f.kind)));
        isEditingFieldName := true;
        renameTarget := Some(f);
        contextMenuField := None;
      }
    }

    /** Typing in the dialog's input. */
    method Type(text: string)
      modifies this
      ensures editingFieldName == text
      ensures contextMenuField == old(contextMenuField) && isEditingFieldName == old(isEditingFieldName)
      ensures renameTarget == old(renameTarget) && updates == old(updates)
      ensures deletions == old(deletions) && selections == old(selections)
    {
      editingFieldName := text;
    }

    /** `handleSaveFieldName` as written: renames the remembered field with
        the trimmed text when both are there, then closes the dialog. */
    method SaveFieldNameAsWritten()
      modifies this
      ensures (old(contextMenuField).Some? && Trim(old(editingFieldName)) != "" ==>
                 updates == old(updates) + [(old(contextMenuField).value.id, SetLabel(Trim(old(editingFieldName))))])
      ensures (old(contextMenuField).None? || Trim(old(editingFieldName)) == "") ==> updates == old(updates)
      ensures !isEditingFieldName && editingFieldName == ""
      ensures contextMenuField == old(contextMenuField) && renameTarget == old(renameTarget)
      ensures deletions == old(deletions) && selections == old(selections)
    {
      var name := Trim(editingFieldName);
      if contextMenuField.Some? && name != "" {
        updates := updates + [(contextMenuField.value.id, SetLabel(name))];
      }
      isEditingFieldName := false;
      editingFieldName := "";
    }

    /** The save the dialog evidently means: renames the field the dialog
        was opened for. */
    method SaveFieldName()
      modifies this
      ensures (old(renameTarget).Some? && Trim(old(editingFieldName)) != "" ==>
                 updates == old(updates) + [(old(renameTarget).value.id, SetLabel(Trim(old(editingFieldName))))])
      ensures (old(renameTarget).None? || Trim(old(editingFieldName)) == "") ==> updates == old(updates)
      ensures !isEditingFieldName && editingFieldName == "" && renameTarget == None
      ensures contextMenuField == old(contextMenuField)
      ensures deletions == old(deletions) && selections == old(selections)
    {
      var name := Trim(editingFieldName);
      if renameTarget.Some? && name != "" {
        updates := updates + [(renameTarget.value.id, SetLabel(name))];
      }
      isEditingFieldName := false;
      editingFieldName := "";
      renameTarget := None;
    }

    /** `handleCancelEditFieldName`: closes the dialog, renaming nothing. */
    method CancelEditFieldName()
      modifies this
      ensures !isEditingFieldName && editingFieldName == "" && renameTarget == None
      ensures contextMenuField == old(contextMenuField) && updates == old(updates)
      ensures deletions == old(deletions) && selections == old(selections)
    {
      isEditingFieldName := false;
      editingFieldName := "";
      renameTarget := None;
    }
  }

  /** As written, right-click, Edit Name, typing a name and Save renames
      nothing: opening the dialog forgot the field that Save looks for. */
  method RenameAsWrittenIsLost(session: EditorSession, f: Field, name: string)
    modifies session
    ensures session.updates == old(session.updates)
  {
    session.RightClick(f);
    session.EditFieldName();
    session.Type(name);
    session.SaveFieldNameAsWritten();
  }

  /** With the corrected save the same steps rename the field to the trimmed
      name, unless the name is blank. */
  method RenameRenamesField(session: EditorSession, f: Field, name: string)
    modifies session
    ensures Trim(name) != "" ==> session.updates == old(session.updates) + [(f.id, SetLabel(Trim(name)))]
    ensures Trim(name) == "" ==> session.updates == old(session.updates)
    ensures !session.isEditingFieldName
  {
    session.RightClick(f);
    session.EditFieldName();
    session.Type(name);
    session.SaveFieldName();
  }
}
