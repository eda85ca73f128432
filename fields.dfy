/** The field model shared by the editor, the side panel and the compositor:
    the closed set of field types, a placed field (geometry always in the
    template's original pixel space), signature assets, and the partial
    updates the editor components emit. */
module Fields {
  import opened Common

  /** The closed variant set `"text" | "date" | "signature" | "qr" | "certificateId"`. */
  datatype FieldKind = Text | Date | Signature | Qr | CertificateId

  datatype TextAlign = AlignLeft | AlignCenter | AlignRight

  /** The string the source stores in a field's `type` property. */
  function KindName(k: FieldKind): (r: string)
    ensures r != ""
  {
    match k
    case Text => "text"
    case Date => "date"
    case Signature => "signature"
    case Qr => "qr"
    case CertificateId => "certificateId"
  }

  lemma KindNameInjective(a: FieldKind, b: FieldKind)
    requires KindName(a) == KindName(b)
    ensures a == b
  {
  }

  /** A placed field; optional properties are `None` when absent. */
  datatype Field = Field(
    id: string,
    kind: FieldKind,
    x: real,
    y: real,
    width: real,
    height: real,
    fontSize: Option<real>,
    fontFamily: Option<string>,
    color: Option<string>,
    placeholder: Option<string>,
    fieldLabel: Option<string>,
    name: Option<string>,
    signatureImageId: Option<string>,
    bold: Option<bool>,
    italic: Option<bool>,
    underline: Option<bool>,
    textAlign: Option<TextAlign>)

  /** An uploaded signature asset; its image is a data URL. */
  datatype SignatureImage = SignatureImage(id: string, name: string, dataUrl: string)

  /** The partial updates `Partial<TemplateField>` that the editor and the side
      panel hand to `onFieldUpdate`; each names the keys it carries. */
  datatype Update =
    | Move(x: real, y: real)
    | Resize(width: real, height: real)
    | SetLabel(fieldLabel: string)
    | SetBold(bold: bool)
    | SetItalic(italic: bool)
    | SetUnderline(underline: bool)
    | SetTextAlign(align: TextAlign)
    | SetSignatureImage(signatureImageId: Option<string>)

  /** `{ ...field, ...update }`: the keys the update carries replace the
      field's, every other property is kept. */
  function Apply(f: Field, u: Update): (r: Field)
    ensures r.id == f.id && r.kind == f.kind && r.fontSize == f.fontSize
    ensures r.fontFamily == f.fontFamily && r.color == f.color && r.placeholder == f.placeholder
    ensures r.name == f.name
    ensures u.Move? ==> r == f.(x := u.x, y := u.y)
    ensures u.Resize? ==> r == f.(width := u.width, height := u.height)
    ensures !u.Move? ==> r.x == f.x && r.y == f.y
    ensures !u.Resize? ==> r.width == f.width && r.height == f.height
    ensures u.SetLabel? ==> r == f.(fieldLabel := Some(u.fieldLabel))
    ensures u.SetBold? ==> r == f.(bold := Some(u.bold))
    ensures u.SetItalic? ==> r == f.(italic := Some(u.italic))
    ensures u.SetUnderline? ==> r == f.(underline := Some(u.underline))
    ensures u.SetTextAlign? ==> r == f.(textAlign := Some(u.align))
    ensures u.SetSignatureImage? ==> r == f.(signatureImageId := u.signatureImageId)
    ensures !u.SetLabel? ==> r.fieldLabel == f.fieldLabel
    ensures !u.SetBold? ==> r.bold == f.bold
    ensures !u.SetItalic? ==> r.italic == f.italic
    ensures !u.SetUnderline? ==> r.underline == f.underline
    ensures !u.SetTextAlign? ==> r.textAlign == f.textAlign
    ensures !u.SetSignatureImage? ==> r.signatureImageId == f.signatureImageId
  {
    match u
    case Move(x, y) => f.(x := x, y := y)
    case Resize(w, h) => f.(width := w, height := h)
    case SetLabel(l) => f.(fieldLabel := Some(l))
    case SetBold(b) => f.(bold := Some(b))
    case SetItalic(b) => f.(italic := Some(b))
    case SetUnderline(b) => f.(underline := Some(b))
    case SetTextAlign(a) => f.(textAlign := Some(a))
    case SetSignatureImage(s) => f.(signatureImageId := s)
  }
}
