# certigenie — a verified model of its core

certigenie is a browser application for designing and issuing certificates. A
user uploads a PDF template and places fields on it: text, date, signature,
certificate id and QR code. The user then fills in recipient data and exports
one certificate per recipient. A verification page looks up a certificate by
its id. The id usually comes from the QR code printed on the certificate.

This project models that core in Dafny, one module per source file:

| module | models |
|---|---|
| `Scaling` | `scalingUtils.ts`: fitting a template into a box, and display ↔ original coordinates |
| `FileUtils` | `fileUtils.ts`: buffer ↔ base64, and file → data URL |
| `Base64` | the `btoa`/`atob` built-ins over the base64 alphabet of RFC 4648 section 4 |
| `UriEncoding` | `encodeURIComponent`/`decodeURIComponent` (ECMA-262 section 19.2.6, percent-encoding of RFC 3986 section 2.1, over UTF-8) |
| `Qr` | `qrGenerator.ts`: option merging, the two generators, the verification link and how the verify page reads it back |
| `Pdf` | `pdfRenderer.ts`: choosing the worker, the render scale, error messages, the page count |
| `Renderer` | `certificateRenderer.ts`: the certificate canvas as a `Canvas` object recording its drawing commands, plus word wrap, signature letterboxing, the QR placeholder and field scaling |
| `Storage` | `certificateStorage.ts`: the IndexedDB stores as maps inside a `CertificateDatabase` object |
| `Editor` | `CanvasEditor.tsx`: template decoding, zoom/drag/resize arithmetic, field captions, the preview QR codes, and the context-menu/rename session |
| `SidePanel` | `SidePanel.tsx`: display names, style toggles, signature usage counts, choosing or clearing a signature |
| `FieldLibrary` | `FieldLibrary.tsx`: the field-type table, its categories, the search filter and drag/click state |
| `Verify` | `verify/page.tsx`: the id to check, the result shown, the busy flag and the verify button |

`Common` and `Fields` hold what the modules share:
- JavaScript truthiness of optional strings, and the logical or on them;
- `trim`, `split`, `toLowerCase`, `includes`;
- the field record and its partial updates.

Work outside the model becomes a parameter:
- text measurement and image loading;
- `QRCode.toDataURL`/`toCanvas` and PDF.js;
- `fetch` probes, `Date.now`/`Math.random`, and the `getAll` listing of a store;
- the locale date formatting and `window.location.origin`.

The values these parameters return are left open.

## Model

| member | source | states |
|---|---|---|
| Scaling.CalculateScaling | src/lib/utils/scalingUtils.ts:18-35 | the scale is the smaller of the two box/template ratios; the scaled size is the original times that scale |
| Scaling.FitsAndTouches | src/lib/utils/scalingUtils.ts:18-35 | a positive template scaled into a positive box fits inside it and fills its width or its height |
| Scaling.AspectPreserved | src/lib/utils/scalingUtils.ts:26-31 | the scaled template has the original's aspect ratio |
| Scaling.ScaleCoordinates | src/lib/utils/scalingUtils.ts:41-54 | every coordinate and dimension is multiplied by the scale |
| Scaling.UnscaleCoordinates | src/lib/utils/scalingUtils.ts:60-73 | the result, multiplied by the scale, gives back the display coordinates |
| Scaling.UnscaleScaleRoundTrip | src/lib/utils/scalingUtils.ts:41-73 | unscaling a scaled rectangle returns the original rectangle, for any non-zero scale |
| Scaling.ScaleUnscaleRoundTrip | src/lib/utils/scalingUtils.ts:41-73 | scaling an unscaled rectangle returns the display rectangle |
| Scaling.ScaleByOneIsIdentity | src/lib/utils/scalingUtils.ts:41-54 | scale 1 leaves a rectangle unchanged |
| Scaling.ScaleKeepsRelativePosition | src/lib/utils/scalingUtils.ts:41-54 | a field's position relative to the template is the same before and after scaling |
| Scaling.GetExportScaling | src/lib/utils/scalingUtils.ts:79-91 | the export scaling uses each given target dimension, defaulting the width to 800 and the height to 600 independently |
| Base64.SextetChar | src/lib/utils/fileUtils.ts:24 | each 6-bit value has an alphabet character that decodes back to it |
| Base64.EncodedLength | src/lib/utils/fileUtils.ts:24 | the encoding of n bytes has 4·⌈n/3⌉ characters |
| Base64.EncodedWhole | src/lib/utils/fileUtils.ts:24 | every encoding is a whole number of 4-character groups |
| Base64.TripleRoundTrip | src/lib/utils/fileUtils.ts:24 | a full group decodes back to its three bytes |
| Base64.SingleRoundTrip | src/lib/utils/fileUtils.ts:24 | a final group of one byte (`==` padding) decodes back to that byte |
| Base64.PairRoundTrip | src/lib/utils/fileUtils.ts:24 | a final group of two bytes (`=` padding) decodes back to those bytes |
| Base64.DecodeEncode | src/lib/utils/fileUtils.ts:24 | decoding the encoding of any byte sequence gives the sequence back |
| Base64.CharCodes | src/lib/utils/fileUtils.ts:53 | byte j is the char code of character j |
| Base64.FromCharCodes | src/lib/utils/fileUtils.ts:21 | the string has one character per byte, each with that byte's code, so it is a binary string |
| Base64.CharCodesFromCharCodes | src/lib/utils/fileUtils.ts:21 | reading back the char codes of the bytes' characters gives the bytes |
| Base64.Btoa | src/lib/utils/fileUtils.ts:24 | `btoa` succeeds exactly on binary strings, with the base64 of their codes; otherwise it throws the invalid-character error |
| Base64.Atob | src/lib/utils/fileUtils.ts:44 | `atob` succeeds exactly on valid base64, giving a binary string of the decoded bytes; otherwise it throws the invalid-encoding error |
| Base64.AtobBtoa | src/lib/utils/fileUtils.ts:24 | `atob(btoa(s)) == s` for every binary string |
| FileUtils.ArrayBufferToBase64 | src/lib/utils/fileUtils.ts:9-32 | a missing or empty buffer throws "Invalid ArrayBuffer provided"; any other buffer is read in 8192-byte chunks whose characters add up to all its bytes, and yields their base64 |
| FileUtils.AppendChunk | src/lib/utils/fileUtils.ts:16-22 | appending the next chunk's characters extends the characters of the prefix read so far |
| FileUtils.Base64ToArrayBuffer | src/lib/utils/fileUtils.ts:38-65 | an empty string throws "Invalid base64 string provided"; invalid base64 throws the wrapped `atob` error; otherwise the buffer holds exactly the decoded bytes |
| FileUtils.BufferRoundTrip | src/lib/utils/fileUtils.ts:9-65 | converting a non-empty buffer to base64 and back gives the same bytes |
| FileUtils.DataUrl | src/lib/utils/fileUtils.ts:79 | the data URL starts with `data:` and carries the MIME type and the base64 payload |
| FileUtils.FileToBase64DataUrl | src/lib/utils/fileUtils.ts:71-91 | a reader error rejects with that error; a null result rejects with "Failed to read file"; an empty file rejects with the buffer error; otherwise it resolves to the data URL of the file's bytes |
| UriEncoding.Utf8 | src/lib/qr/qrGenerator.ts:71 | a character takes 1 to 4 UTF-8 octets, and only ASCII takes exactly one |
| UriEncoding.HexDigit | src/lib/qr/qrGenerator.ts:71 | the digit written for a value reads back as that value |
| UriEncoding.PercentByte | src/lib/qr/qrGenerator.ts:71 | an octet is written as three characters starting with `%` |
| UriEncoding.EncodeUriComponent | src/lib/qr/qrGenerator.ts:71 | the encoding is never shorter than the input |
| UriEncoding.ParsePercentBytes | src/lib/qr/qrGenerator.ts:71 | percent-escaped octets parse back to those octets |
| UriEncoding.Utf8TwoRoundTrip | src/lib/qr/qrGenerator.ts:71 | two-octet UTF-8 decodes back to the character |
| UriEncoding.Utf8ThreeRoundTrip | src/lib/qr/qrGenerator.ts:71 | three-octet UTF-8 decodes back to the character |
| UriEncoding.Utf8FourRoundTrip | src/lib/qr/qrGenerator.ts:71 | four-octet UTF-8 decodes back to the character |
| UriEncoding.DecodeEncodeChar | src/lib/qr/qrGenerator.ts:71 | decoding the encoding of one character yields that character before the decoding of what follows |
| UriEncoding.DecodeEncode | src/lib/qr/qrGenerator.ts:71 | `decodeURIComponent(encodeURIComponent(s)) == s` for every string |
| UriEncoding.EncodeIdIsIdentity | src/lib/qr/qrGenerator.ts:71 | an id made of ASCII letters, digits and `-` is carried unescaped |
| UriEncoding.EncodedIsQuerySafe | src/lib/qr/qrGenerator.ts:71 | the encoding holds only unreserved characters and `%`, so no `&`, `=`, `#`, `+` or space |
| Qr.Merge | src/lib/qr/qrGenerator.ts:19-29 | each given option replaces its default (width/height 200, margin 2, black on white) and each omitted option keeps it |
| Qr.MergeNoOptions | src/lib/qr/qrGenerator.ts:16-29 | calling with no options gives exactly the defaults |
| Qr.MergeIdempotent | src/lib/qr/qrGenerator.ts:19-29 | merging an already-merged options object changes nothing |
| Qr.ColorReplacedWholesale | src/lib/qr/qrGenerator.ts:22-28 | a caller's colour that gives only `dark` loses the default `light`, because the merge is shallow |
| Qr.GenerateQrCode | src/lib/qr/qrGenerator.ts:14-37 | succeeds exactly when the library does, with its data URL for the merged options; otherwise it fails with "Failed to generate QR code" |
| Qr.GenerateQrCodeCanvas | src/lib/qr/qrGenerator.ts:39-63 | succeeds exactly when the library draws, giving a canvas for the data and merged options; otherwise it fails with its fixed message |
| Qr.VerificationUrl | src/lib/qr/qrGenerator.ts:65-72 | the link is the window origin, or `https://certigenie.app` when there is no window, followed by `/verify?certificateId=` and the encoded id |
| Qr.IndexOf | src/app/verify/page.tsx:105 | finds the first occurrence of the character, and `None` exactly when it is absent |
| Qr.Search | src/app/verify/page.tsx:105 | `location.search` without its `?` never reaches into the fragment |
| Qr.PairName | src/app/verify/page.tsx:105 | a pair's name is its text up to the first `=`, holding no `=` |
| Qr.PairValue | src/app/verify/page.tsx:105 | a pair's value is its text after the first `=`, and empty for a pair without `=` |
| Qr.PairOfNameAndValue | src/app/verify/page.tsx:105 | `name=value` splits back into that name and value when the name holds no `=` |
| Qr.QueryParam | src/app/verify/page.tsx:105-106 | a value is found only when some non-empty pair of the search part names the parameter |
| Qr.FirstParam | src/app/verify/page.tsx:106 | no pair naming the parameter gives `null` |
| Qr.FirstParamFirstMatch | src/app/verify/page.tsx:106 | the first pair whose decoded name matches decides the value; later pairs are ignored |
| Qr.BarePairIsEmpty | src/app/verify/page.tsx:106 | a bare `certificateId` pair without `=` gives the empty string |
| Qr.QueryIgnoresFragment | src/app/verify/page.tsx:105 | a `#fragment` after the URL does not change the parameter read |
| Qr.IdDecodesToItself | src/app/verify/page.tsx:106 | a name over `[A-Za-z0-9-]` form-decodes to itself |
| Qr.ParamNameReadsBack | src/app/verify/page.tsx:106 | the name `certificateId` decodes to itself, so its pair is recognised |
| Qr.SinglePairQuery | src/app/verify/page.tsx:105-106 | a query with one `name=value` pair gives the decoded value for that name |
| Qr.EncodedHasNoQuerySyntax | src/lib/qr/qrGenerator.ts:71 | an encoded id contains no `&`, `+` or `#` |
| Qr.QueryAfterFirstMark | src/app/verify/page.tsx:105 | without a fragment, the query is read from after the link's first `?` |
| Qr.ConstantPartsPlain | src/lib/qr/qrGenerator.ts:70-71 | the fallback origin, the `/verify` path and the parameter name contain no query or fragment syntax |
| Qr.VerificationUrlRoundTrip | src/lib/qr/qrGenerator.ts:65-72 | the verify page reads back exactly the id the link was made for, for any id of scalar values, when the origin holds no `?` or `#` |
| Pdf.WorkerSources | src/lib/pdf/pdfRenderer.ts:11-18 | four candidate worker URLs, the local one first |
| Pdf.FirstOk | src/lib/pdf/pdfRenderer.ts:21-34 | the index of the first source whose probe answered OK, with every earlier one failing |
| Pdf.SelectWorker | src/lib/pdf/pdfRenderer.ts:21-37 | picks the first source whose probe answers OK, or the first source when none does |
| Pdf.PdfJsGlobals.SetupWorker | src/lib/pdf/pdfRenderer.ts:6-39 | a configured worker is kept without probing; otherwise the selected source is stored after probing each source up to the first OK one |
| Pdf.PdfJsGlobals.LoadModule | src/lib/pdf/pdfRenderer.ts:41-49 | in a browser the local worker is set at once and setup starts; without a window nothing is set |
| Pdf.PdfJsGlobals.EnsureWorker | src/lib/pdf/pdfRenderer.ts:69-73 | after the check a worker source is always configured, the local one if none was |
| Pdf.BrowserNeverProbes | src/lib/pdf/pdfRenderer.ts:6-49 | because module load sets the local worker first, the later setup never probes and keeps that worker |
| Pdf.ChooseScale | src/lib/pdf/pdfRenderer.ts:94-107 | with both targets the scale fits the page to them; otherwise it fits 800×600, capped at 2 |
| Pdf.TargetScaleIsFitScale | src/lib/pdf/pdfRenderer.ts:95-99 | the target scale equals the editor's `calculateScaling` scale |
| Pdf.DefaultScaleBounds | src/lib/pdf/pdfRenderer.ts:100-107 | the default scale is positive, at most 2, and keeps the page within 800×600 |
| Pdf.ErrorMessage | src/lib/pdf/pdfRenderer.ts:139-162 | maps a thrown error to the worker, invalid-PDF or password message, in that order of precedence; other errors get the prefixed original message, and non-errors the generic one |
| Pdf.WorkerCheckedFirst | src/lib/pdf/pdfRenderer.ts:144-152 | a message mentioning both "worker" and "password" is reported as a worker failure |
| Pdf.MessagesNonEmpty | src/lib/pdf/pdfRenderer.ts:139-162 | every mapped message is non-empty |
| Pdf.NoContextMessageMapped | src/lib/pdf/pdfRenderer.ts:115-117 | the missing-context error reaches the caller as "PDF rendering failed: Could not get canvas context" |
| Pdf.RenderOutcome | src/lib/pdf/pdfRenderer.ts:57-163 | a render succeeds exactly when the page loads, a context exists and rendering does not throw; success reports the viewport scaled by the chosen scale, and failure the mapped message |
| Pdf.RenderPdfToCanvas | src/lib/pdf/pdfRenderer.ts:57-163 | makes sure a worker is configured, then returns the render outcome |
| Pdf.RenderedPageFitsTargets | src/lib/pdf/pdfRenderer.ts:94-99 | a page rendered for positive targets fits them and fills one of them |
| Pdf.PageCount | src/lib/pdf/pdfRenderer.ts:165-175 | the document's page count, or 1 when loading throws |
| Renderer.Canvas.constructor | src/lib/certificate/certificateRenderer.ts:66 | a fresh canvas is 300×150, in its initial state, with no saved states and nothing drawn |
| Renderer.Canvas.Save | src/lib/certificate/certificateRenderer.ts:122 | pushes the drawing state and draws nothing |
| Renderer.Canvas.Restore | src/lib/certificate/certificateRenderer.ts:254 | pops the last saved state, or does nothing when none is saved |
| Renderer.Canvas.FillTextAt | src/lib/certificate/certificateRenderer.ts:148 | appends one text command in the current style |
| Renderer.Canvas.FillRectAt | src/lib/certificate/certificateRenderer.ts:227 | appends one filled rectangle in the current fill style |
| Renderer.Canvas.StrokeRectAt | src/lib/certificate/certificateRenderer.ts:229 | appends one stroked rectangle in the current stroke style |
| Renderer.Canvas.DrawImageAt | src/lib/certificate/certificateRenderer.ts:77 | appends one image command |
| Renderer.FieldValue | src/lib/certificate/certificateRenderer.ts:125 | the recipient's value for the field id, or empty when absent |
| Renderer.TextRows | src/lib/certificate/certificateRenderer.ts:142-155 | line k is drawn at the field's left edge, k line-heights below its top |
| Renderer.Letterbox | src/lib/certificate/certificateRenderer.ts:167-182 | the image box is centred in the field and keeps the image's aspect ratio |
| Renderer.LetterboxFits | src/lib/certificate/certificateRenderer.ts:167-182 | the image box lies inside the field and fills its width or its height |
| Renderer.FindSignature | src/lib/certificate/certificateRenderer.ts:160-163 | the first signature image with that id, or none exactly when no image has it |
| Renderer.SetTextStyle | src/lib/certificate/certificateRenderer.ts:131-134 | sets the field's colour and font, top-left alignment, and draws nothing |
| Renderer.DrawWrappedText | src/lib/certificate/certificateRenderer.ts:138-155 | the word-wrap loop draws exactly the rows of `Lines` of the value, in order, and restores nothing else |
| Renderer.DrawNextWord | src/lib/certificate/certificateRenderer.ts:142-154 | one loop step: flushes the line when the word would overflow, and the commands stay the rows flushed so far |
| Renderer.DrawRow | src/lib/certificate/certificateRenderer.ts:155 | draws one row at the next line position |
| Renderer.TextRowsAppend | src/lib/certificate/certificateRenderer.ts:142-155 | one more line adds exactly one row, one line-height lower |
| Renderer.WrapCounts | src/lib/certificate/certificateRenderer.ts:139-154 | the current line is empty only when there are no words, and fewer lines are flushed than there are words |
| Renderer.WrapKeepsWords | src/lib/certificate/certificateRenderer.ts:142-154 | the flushed lines plus the current line spell out the words, each followed by a space |
| Renderer.WrapLinesGood | src/lib/certificate/certificateRenderer.ts:142-154 | every line either fits the field's width or is a single word |
| Renderer.LinesCount | src/lib/certificate/certificateRenderer.ts:139-155 | a text field draws at least one row and never more rows than words |
| Renderer.LinesGood | src/lib/certificate/certificateRenderer.ts:142-155 | every drawn row fits the width or is a single over-long word |
| Renderer.LinesKeepValue | src/lib/certificate/certificateRenderer.ts:139-155 | the drawn rows together spell the value, followed by a space |
| Renderer.TextFieldLayout | src/lib/certificate/certificateRenderer.ts:128-156 | a text or date field draws the rows of its value's lines, at least one |
| Renderer.SignatureFieldOutcomes | src/lib/certificate/certificateRenderer.ts:158-204 | a missing signature draws the "Signature" text; an image that fails to load draws nothing; a loaded image is drawn once, inside the field |
| Renderer.QrFieldOutcomes | src/lib/certificate/certificateRenderer.ts:215-251 | a loaded QR image fills the field; otherwise a grey box is drawn with "QR Code" centred in it |
| Renderer.CertificateIdFieldDrawsId | src/lib/certificate/certificateRenderer.ts:206-213 | a certificate-id field draws the certificate id at its corner |
| Renderer.DrawQrPlaceholder | src/lib/certificate/certificateRenderer.ts:239-250 | draws exactly the placeholder box and caption |
| Renderer.RenderField | src/lib/certificate/certificateRenderer.ts:103-255 | draws exactly the field's commands, leaving the drawing state as it found it |
| Renderer.ScaledField | src/lib/certificate/certificateRenderer.ts:80-98 | scaling changes only a field's position and size |
| Renderer.ScaledFieldGeometry | src/lib/certificate/certificateRenderer.ts:80-98 | with a scale and both original dimensions the geometry is scaled like `scaleCoordinates`; without them the field is untouched |
| Renderer.ScaleOneKeepsFields | src/lib/certificate/certificateRenderer.ts:80-98 | scale 1 draws every field as designed |
| Renderer.RenderFields | src/lib/certificate/certificateRenderer.ts:80-98 | the field loop draws the commands of every scaled field, in order |
| Renderer.GenerateCertificateCanvas | src/lib/certificate/certificateRenderer.ts:48-101 | fails exactly when there is no 2D context; otherwise returns a fresh canvas of the requested size holding the template and then the fields |
| Renderer.FieldsNeverDrawTemplate | src/lib/certificate/certificateRenderer.ts:80-98 | no field draws the template image |
| Renderer.TemplateDrawnFirstAndOnce | src/lib/certificate/certificateRenderer.ts:77-98 | the template is the first command and is never drawn again |
| Renderer.QrCodeForCertificate | src/lib/certificate/certificateRenderer.ts:257-273 | the QR code encodes the certificate's verification link, at the requested size with margin 1 and black on white; library failures become "Failed to generate QR code" |
| Storage.FindByCertificateId | src/lib/storage/certificateStorage.ts:85-89 | the first listed record with that certificate id, or none exactly when no listed record has it |
| Storage.LookupSound | src/lib/storage/certificateStorage.ts:75-93 | a found record is a stored record whose key or certificate id is the query |
| Storage.LookupComplete | src/lib/storage/certificateStorage.ts:75-93 | whenever some stored record has the certificate id, the lookup finds a record |
| Storage.KeyLookupFirst | src/lib/storage/certificateStorage.ts:80-84 | a record under the queried key wins over a scan match |
| Storage.CertificateDatabase.constructor | src/lib/storage/certificateStorage.ts:42 | starts with no handle, no opens and empty stores |
| Storage.CertificateDatabase.InitDb | src/lib/storage/certificateStorage.ts:44-55 | returns the cached handle, or opens once and caches it |
| Storage.CertificateDatabase.SaveCertificate | src/lib/storage/certificateStorage.ts:68-73 | puts the record under its own id, replacing any previous one, and keeps the key invariant |
| Storage.CertificateDatabase.GetCertificate | src/lib/storage/certificateStorage.ts:75-93 | the record under the key, else the first listed record with that certificate id, else none, with the stores unchanged |
| Storage.CertificateDatabase.DeleteCertificate | src/lib/storage/certificateStorage.ts:100-103 | removes exactly the entry under that key |
| Storage.CertificateDatabase.SaveTemplate | src/lib/storage/certificateStorage.ts:113-116 | puts the template under its own id |
| Storage.CertificateDatabase.GetTemplate | src/lib/storage/certificateStorage.ts:118-123 | the template under the key, or null |
| Storage.InitDbTwice | src/lib/storage/certificateStorage.ts:44-55 | two calls return the same handle and open the database at most once |
| Storage.SaveThenGet | src/lib/storage/certificateStorage.ts:68-93 | a saved certificate is found again by its own id |
| Fields.KindName | src/lib/certificate/certificateRenderer.ts:4-18 | every field type has a non-empty type string |
| Fields.KindNameInjective | src/lib/certificate/certificateRenderer.ts:4-18 | different field types have different type strings |
| Fields.Apply | src/components/canvas/CanvasEditor.tsx:337-353 | each kind of update sets exactly the keys it carries to its values, and every other property is kept |
| Editor.DataUrlPayload | src/components/canvas/CanvasEditor.tsx:117 | there is a second comma-separated piece exactly when the data contains a comma |
| Editor.AtobOfUndefined | src/components/canvas/CanvasEditor.tsx:117-118 | `atob(undefined)` throws the invalid-encoding error |
| Editor.TemplateBytes | src/components/canvas/CanvasEditor.tsx:113-127 | a data URL's base64 payload is decoded, and non-data-URL text is passed through; a data URL without a comma or with invalid base64 fails |
| Editor.DecodeTemplateData | src/components/canvas/CanvasEditor.tsx:113-127 | the char-code loop yields the decoded template bytes |
| Editor.EncodedHasNoComma | src/lib/utils/fileUtils.ts:24 | base64 text contains no comma |
| Editor.UploadedTemplateDecodes | src/components/canvas/CanvasEditor.tsx:113-127 | a template stored as a data URL by the upload decodes back to the uploaded bytes |
| Editor.ResizeScale | src/components/canvas/CanvasEditor.tsx:213-217 | the window-resize scale is the smaller container/stage ratio |
| Editor.ResizeAgreesWithLoad | src/components/canvas/CanvasEditor.tsx:148-155 | the resize scale equals the scale computed when the template loads |
| Editor.DisplayRect | src/components/canvas/CanvasEditor.tsx:650-653 | display geometry is the field's geometry scaled like `scaleCoordinates` |
| Editor.DragEnd | src/components/canvas/CanvasEditor.tsx:327-341 | a drag stores the node position divided by the scale |
| Editor.DragInPlaceKeepsField | src/components/canvas/CanvasEditor.tsx:327-341 | dropping a field where it is drawn leaves it unchanged |
| Editor.ResizeUpdate | src/components/canvas/CanvasEditor.tsx:343-358 | the new size is the scaled size, clamped to at least 50×20 |
| Editor.UnitResizeKeepsField | src/components/canvas/CanvasEditor.tsx:343-358 | a resize by 1 leaves a field that already meets the minimum unchanged |
| Editor.BoundBox | src/components/canvas/CanvasEditor.tsx:1131-1140 | a proposed box under 50×20 is refused and the old box kept |
| Editor.BoundBoxKeepsMinimum | src/components/canvas/CanvasEditor.tsx:1131-1140 | once big enough, a box stays big enough through any sequence of transformer steps |
| Editor.GetFieldLabel | src/components/canvas/CanvasEditor.tsx:399-414 | the label is non-empty, and is "Field" exactly for unknown types |
| Editor.FieldLabelsDistinct | src/components/canvas/CanvasEditor.tsx:399-414 | every known type has its own label, never "Field" |
| Editor.EditorCaption | src/components/canvas/CanvasEditor.tsx:698-700 | the editor caption: the placeholder for text, date and signature fields; the label or "Certificate ID" for id fields; "QR Code" for QR fields |
| Editor.PreviewCaption | src/components/canvas/CanvasEditor.tsx:434 | the preview caption prefers the placeholder, and a QR field shows "QR" |
| Editor.CertificateIdPlaceholderOnlyInPreview | src/components/canvas/CanvasEditor.tsx:577 | an id field's placeholder shows in the preview but never in the editor |
| Editor.CaptionsAgreeWhenNamed | src/components/canvas/CanvasEditor.tsx:434 | editor and preview captions agree for a named text, date or signature field |
| Editor.CanvasFontSize | src/components/canvas/CanvasEditor.tsx:435 | the on-screen font size is the field's size, or 12, times the scale |
| Editor.UnsizedFieldPreviewSmallerThanExport | src/components/canvas/CanvasEditor.tsx:435 | an unsized field previews at 12px but exports at 16px |
| Editor.Substr | src/components/canvas/CanvasEditor.tsx:267 | `substr(start, length)` takes at most `length` characters from `start` |
| Editor.SampleId | src/components/canvas/CanvasEditor.tsx:265-268 | the sample id starts with `CERT-` and is bounded in length |
| Editor.SampleIdNeedsNoEscaping | src/components/canvas/CanvasEditor.tsx:265-269 | a sample id built from base-36 digits is carried in the link unescaped |
| Editor.PreviewQrOptions | src/components/canvas/CanvasEditor.tsx:270-278 | the preview QR is the field's size, black on white, margin 1, level M |
| Editor.PreviewCodes | src/components/canvas/CanvasEditor.tsx:262-286 | one QR outcome per field, each for that field's sample id |
| Editor.QrImagesKeys | src/components/canvas/CanvasEditor.tsx:259-286 | an image is kept exactly for QR fields whose generation succeeded |
| Editor.QrImagesValues | src/components/canvas/CanvasEditor.tsx:259-286 | each kept image is the code generated for a QR field with that id |
| Editor.GenerateQrPreviews | src/components/canvas/CanvasEditor.tsx:257-294 | no fields generate nothing; otherwise the loop collects the images of the successful QR fields |
| Editor.OnScreenMatchesExportOnlyAtUnitScale | src/components/canvas/CanvasEditor.tsx:650-653 | as written, a field's on-screen relative position equals its exported one only at scale 1 |
| Editor.FieldDrawnDoubleScaled | src/components/canvas/CanvasEditor.tsx:1105-1110 | at scale 0.5 a field at x = 100 on an 800-wide stage appears at 1/16 of the width instead of 1/8 |
| Editor.CorrectedOnScreenRelativeX | src/components/canvas/CanvasEditor.tsx:1105-1110 | drawing original coordinates inside the scaled stage puts a field at its exported relative position |
| Editor.CorrectedDragEnd | src/components/canvas/CanvasEditor.tsx:327-341 | with the corrected drawing, a drag stores the node position as it is |
| Editor.CorrectedDrawingAgreesWithExport | src/components/canvas/CanvasEditor.tsx:650-653 | with the correction, dragging in place keeps the field and the screen matches the export at every scale |
| Editor.EditorSession.constructor | src/components/canvas/CanvasEditor.tsx:360-397 | no menu target, no dialog, no updates |
| Editor.EditorSession.RightClick | src/components/canvas/CanvasEditor.tsx:360-367 | the field becomes the menu target and is selected |
| Editor.EditorSession.DeleteField | src/components/canvas/CanvasEditor.tsx:369-374 | deletes the menu target, if any, and clears it |
| Editor.EditorSession.EditFieldName | src/components/canvas/CanvasEditor.tsx:376-384 | opens the dialog with the field's label or type label, and clears the menu target |
| Editor.EditorSession.Type | src/components/canvas/CanvasEditor.tsx:1170 | typing replaces the dialog text |
| Editor.EditorSession.SaveFieldNameAsWritten | src/components/canvas/CanvasEditor.tsx:386-392 | as written: relabels only when a menu target is still set, then closes the dialog |
| Editor.EditorSession.SaveFieldName | src/components/canvas/CanvasEditor.tsx:386-392 | corrected: relabels the field the dialog was opened for with the trimmed non-empty text, then closes the dialog |
| Editor.EditorSession.CancelEditFieldName | src/components/canvas/CanvasEditor.tsx:394-397 | closes the dialog without an update |
| Editor.RenameAsWrittenIsLost | src/components/canvas/CanvasEditor.tsx:376-392 | as written, right-click → Edit Name → Save never emits an update |
| Editor.RenameRenamesField | src/components/canvas/CanvasEditor.tsx:376-392 | corrected, the same steps relabel the field with the trimmed name, or leave it when the name is blank |
| SidePanel.Capitalise | src/components/design/SidePanel.tsx:78 | upper-cases the first character and keeps the rest |
| SidePanel.DisplayName | src/components/design/SidePanel.tsx:74-80 | the label, else the placeholder, else the capitalised type; never empty |
| SidePanel.DisplayNameIgnoresName | src/components/design/SidePanel.tsx:74-80 | the field's `name` never affects its listed name |
| SidePanel.UnnamedFieldsDistinguished | src/components/design/SidePanel.tsx:74-80 | unnamed fields of different types are listed differently |
| SidePanel.ToggleBold | src/components/design/SidePanel.tsx:82-86 | with a selection, emits the negated bold flag for it; otherwise nothing |
| SidePanel.ToggleItalic | src/components/design/SidePanel.tsx:88-92 | with a selection, emits the negated italic flag; otherwise nothing |
| SidePanel.ToggleUnderline | src/components/design/SidePanel.tsx:94-98 | with a selection, emits the negated underline flag; otherwise nothing |
| SidePanel.SetAlign | src/components/design/SidePanel.tsx:100-104 | with a selection, emits the alignment; otherwise nothing |
| SidePanel.TogglesFlipOneFlag | src/components/design/SidePanel.tsx:82-98 | a toggle flips its own flag and nothing else |
| SidePanel.ToggleTwiceRestores | src/components/design/SidePanel.tsx:82-86 | toggling twice restores the flag's truthiness |
| SidePanel.UpdatesTargetSelection | src/components/design/SidePanel.tsx:82-104 | every update targets the selected field |
| SidePanel.UsageCount | src/components/design/SidePanel.tsx:311-315 | the count of signature fields using the signature; zero exactly when none does |
| SidePanel.UsageBadge | src/components/design/SidePanel.tsx:347-348 | "Used in 1 field" for 1, and "Used in N fields" with N in decimal for any other count |
| SidePanel.SignatureFieldCount | src/components/design/SidePanel.tsx:390-391 | at most the number of fields |
| SidePanel.FieldsWithSignaturesCount | src/components/design/SidePanel.tsx:394-400 | at most the number of fields |
| SidePanel.WithSignaturesAtMostSignatureFields | src/components/design/SidePanel.tsx:390-400 | fields with signatures never outnumber signature fields |
| SidePanel.UsageAtMostFieldsWithSignatures | src/components/design/SidePanel.tsx:311-315 | one signature's usage never exceeds the fields with signatures |
| SidePanel.UnusedCount | src/components/design/SidePanel.tsx:403-413 | at most the number of signatures |
| SidePanel.UnusedCountMatchesBadges | src/components/design/SidePanel.tsx:356-413 | the summary's unused count equals the number of cards badged "Unused" |
| SidePanel.SelectSignature | src/components/design/SidePanel.tsx:689-692 | the empty option clears the signature, any other sets it |
| SidePanel.RemoveSignature | src/components/design/SidePanel.tsx:736-740 | clears the signature |
| SidePanel.ClearingDetachesField | src/components/design/SidePanel.tsx:689-740 | both ways of clearing give the same field, which no signature counts any more |
| SidePanel.ChoosingAttachesField | src/components/design/SidePanel.tsx:689-692 | choosing a signature makes the field one of its users |
| FieldLibrary.DefaultSize | src/components/design/FieldLibrary.tsx:47-88 | each kind's default size is the one in the table |
| FieldLibrary.EachKindOnce | src/components/design/FieldLibrary.tsx:47-88 | each kind appears in the table exactly once |
| FieldLibrary.DefaultSizesPositive | src/components/design/FieldLibrary.tsx:47-88 | every default size is at least 50×20 |
| FieldLibrary.OfKinds | src/components/design/FieldLibrary.tsx:95-105 | never longer than the table |
| FieldLibrary.OfKindsMembers | src/components/design/FieldLibrary.tsx:95-105 | keeps exactly the entries of the listed kinds |
| FieldLibrary.BasicCategoryInTableOrder | src/components/design/FieldLibrary.tsx:91-98 | Basic holds text, date and certificate id, in table order |
| FieldLibrary.VisualCategoryInTableOrder | src/components/design/FieldLibrary.tsx:99-106 | Visual holds signature and QR, in table order |
| FieldLibrary.CategoriesPartitionTypes | src/components/design/FieldLibrary.tsx:90-107 | every field type is in exactly one category |
| FieldLibrary.FilterFields | src/components/design/FieldLibrary.tsx:121-125 | never longer than its input |
| FieldLibrary.FilterFieldsMembers | src/components/design/FieldLibrary.tsx:121-125 | keeps exactly the types whose name or description contains the term, case-insensitively |
| FieldLibrary.FilterFieldsAppend | src/components/design/FieldLibrary.tsx:121-125 | filtering distributes over concatenation, so order is kept |
| FieldLibrary.EmptyTermMatches | src/components/design/FieldLibrary.tsx:123-124 | the empty term matches every type |
| FieldLibrary.FilterEmptyTermKeepsAll | src/components/design/FieldLibrary.tsx:121-125 | an empty search keeps every type |
| FieldLibrary.Narrow | src/components/design/FieldLibrary.tsx:119-126 | a category keeps its id, name and description, and only filters its fields |
| FieldLibrary.FilteredCategories | src/components/design/FieldLibrary.tsx:118-127 | never more categories than before |
| FieldLibrary.FilteredCategoriesMembers | src/components/design/FieldLibrary.tsx:118-127 | exactly the narrowed categories that still have fields |
| FieldLibrary.FilteredCategoriesAppend | src/components/design/FieldLibrary.tsx:118-127 | filtering categories distributes over concatenation |
| FieldLibrary.ListedIffMatchesIn | src/components/design/FieldLibrary.tsx:118-127 | a type is listed after filtering exactly when it matches the term |
| FieldLibrary.ListedIffMatches | src/components/design/FieldLibrary.tsx:118-127 | in the library, a field type is shown exactly when it matches the search |
| FieldLibrary.EmptyTermKeepsCategories | src/components/design/FieldLibrary.tsx:118-127 | an empty search keeps non-empty categories as they are |
| FieldLibrary.EmptySearchKeepsEverything | src/components/design/FieldLibrary.tsx:116-127 | the initial empty search shows the whole library |
| FieldLibrary.LibraryState.constructor | src/components/design/FieldLibrary.tsx:113-115 | nothing is being dragged |
| FieldLibrary.LibraryState.DragStart | src/components/design/FieldLibrary.tsx:129-132 | marks the kind as dragged and reports it |
| FieldLibrary.LibraryState.DragEnd | src/components/design/FieldLibrary.tsx:134-136 | clears the dragged kind |
| FieldLibrary.LibraryState.Click | src/components/design/FieldLibrary.tsx:138-140 | adds a field of the kind |
| FieldLibrary.DragAndDrop | src/components/design/FieldLibrary.tsx:129-136 | after a drag ends nothing is marked as dragged, and the start was reported |
| Verify.Invalid | src/app/verify/page.tsx:53-59 | an invalid result carrying the message |
| Verify.CertIdToUse | src/app/verify/page.tsx:51 | a non-empty argument wins over the trimmed input, and the id is empty exactly when both are blank |
| Verify.FoundResult | src/app/verify/page.tsx:71-82 | a found certificate gives a valid result with its data; the date and signature fall back to the locale date and "Not provided" |
| Verify.SettledResult | src/app/verify/page.tsx:71-95 | the result is valid exactly when a certificate was found; a miss or an exception gives its message |
| Verify.StoreOutcome | src/app/verify/page.tsx:69 | the store's lookup never throws and finds exactly what `getCertificate` finds |
| Verify.ButtonEnabledIffIdPresent | src/app/verify/page.tsx:204-206 | an idle page enables the button exactly when there is a non-blank id |
| Verify.IdFromUrl | src/app/verify/page.tsx:104-107 | the `certificateId` query value exactly when it is present and non-empty, otherwise nothing |
| Verify.LinkLeadsToId | src/app/verify/page.tsx:104-113 | a verification link makes the page check exactly its id |
| Verify.VerifyPage.constructor | src/app/verify/page.tsx:43-45 | an empty input, idle, no result |
| Verify.VerifyPage.SetInput | src/app/verify/page.tsx:43 | typing changes only the input |
| Verify.VerifyPage.Start | src/app/verify/page.tsx:51-62 | a blank id shows the error and stops; otherwise the page becomes busy, clears the result and asks for that id |
| Verify.VerifyPage.Settle | src/app/verify/page.tsx:71-98 | shows the outcome's result and is idle again |
| Verify.VerifyCertificate | src/app/verify/page.tsx:49-101 | one check asks for the chosen id exactly once, shows its result, and ends idle |
| Verify.ScannedCertificateVerifies | src/app/verify/page.tsx:104-113 | scanning a stored certificate's link shows a valid result |
| Common.Or | src/components/design/SidePanel.tsx:76-78 | JavaScript's logical or on an optional string: the value when present and non-empty, else the fallback |
| Common.Trim | src/app/verify/page.tsx:51 | the input's middle slice, with only whitespace cut from either end; no leading or trailing whitespace left, and empty exactly for all-whitespace input |
| Common.ToLower | src/components/design/FieldLibrary.tsx:123-124 | lower-cases character by character |
| Common.Split | src/components/canvas/CanvasEditor.tsx:117 | at least one piece, none containing the separator |
| Common.JoinSplit | src/components/canvas/CanvasEditor.tsx:117 | joining the pieces with the separator gives the string back |
| Common.SplitHasSecondPiece | src/components/canvas/CanvasEditor.tsx:117 | a second piece exists exactly when the separator occurs |
| Common.NatToString | src/components/design/SidePanel.tsx:347 | the decimal digits, whose value is the number (`NatToStringValue`) |
| Common.NatToStringValue | src/components/design/SidePanel.tsx:347 | the printed digits read back as the number |

## Left out

- Division by zero is excluded by preconditions: `Scaling.CalculateScaling`, `Scaling.UnscaleCoordinates`, `Editor.DragEnd` and `Editor.ResizeScale` require non-zero divisors, `Renderer.Letterbox` requires positive image dimensions for the aspect ratio `img.width / img.height`, and `Pdf.ChooseScale` and `Pdf.RenderOutcome` take the page viewport's width and height as positive numbers, since the scale divides by them. JavaScript would produce `Infinity`/`NaN` there; floating point is modelled as exact reals.
- Base64.Btoa and Base64.Atob: the texts of their errors (`BtoaError`, `AtobError`) stand in for the browser's `InvalidCharacterError` message, whose wording differs between engines. Only the fact of failure, and that `base64ToArrayBuffer` prefixes whatever message it gets, is modelled.
- Base64.Atob: accepts only canonical, padded base64 without whitespace. The browser also strips ASCII whitespace and accepts unpadded input; every string the app decodes comes from `btoa`.
- Common.ToLower: ASCII only. `toLowerCase` on other scripts is not modelled.
- Qr.Merge: an explicit `undefined` value in the caller's options is treated as omitted. In JavaScript it would override the default with `undefined`.
- Qr.FormDecode: a malformed escape (`%` not followed by two hex digits) or escaped bytes that are not UTF-8 give `None`. `URLSearchParams` keeps a malformed escape as literal text and replaces bytes that are not UTF-8 with U+FFFD. The model also skips a pair whose name does not decode, where the browser would compare the literal or replaced name. Links made by the app never contain such text, because an encoded id holds only unreserved characters and well-formed escapes (`UriEncoding.EncodedIsQuerySafe`, `UriEncoding.DecodeEncode`).
- Qr.VerificationUrlRoundTrip: requires an origin without `?` or `#`. `window.location.origin` is scheme, host and port, which never hold either.
- UriEncoding.EncodeUriComponent and Editor.Substr: strings are sequences of Unicode scalar values, not of UTF-16 code units. A lone surrogate, on which `encodeURIComponent` throws a `URIError` (section 19.2.6 of ECMA-262), cannot be represented, and `substr` and `length` count one character where JavaScript counts two code units for characters above U+FFFF. Qr.VerificationUrlRoundTrip holds for every id the model can represent.
- Async timing (`setTimeout` delays, awaiting image loads, the 1-second verify delay) is not modelled. Each awaited step is a parameter or a single call.
- Canvas pixel sizes are real numbers. Browsers truncate `canvas.width`/`height` to integers.
- Renderer.SignatureFieldOutcomes: when the signature image fails to load, the code's `onerror` handler draws nothing.
- PDF.js, the `qrcode` library, IndexedDB, Konva, `FileReader` and `fetch` are parameters or outcome values. Their internals are not modelled.
- Console logging is not modelled.
- `getAllCertificates` and `getAllTemplates` are not separate members. The listing `all` is a parameter, required to list each stored record once.
- The editor's effect that loads signature images into `Image` objects is not modelled. It only caches decoded images.
- The side panel's property inputs (name, label, font size, font family, colour, position and size) are not modelled. Each just forwards its input as a field update.
- Editor.TemplateBytes: data that is not a data URL is passed through as it is. The source casts such a string to `ArrayBuffer`; what PDF.js then does with it is not modelled.
- Editor.SampleId: bounds the length but does not claim the random part always has 9 characters. `Math.random().toString(36).substr(2, 9)` can yield fewer.
- FileUtils.ArrayBufferToBase64: the `catch` that wraps a failure as "Failed to convert ArrayBuffer to base64: …" is not modelled. `btoa` cannot fail on the binary string the chunk loop builds, so that branch is unreachable.
- Icons, colours, layout and the verify page's debug list of stored certificates are presentation only.
- `Renderer.FontSize`, `Renderer.FieldFont` and `Renderer.FieldColor` model the defaults 16, Arial and `#000000` as plain functions, without a row of their own.

## Findings

| source | as written | input that shows it | evidently intended | confidence | as-written member | corrected member |
|---|---|---|---|---|---|---|
| src/components/canvas/CanvasEditor.tsx:376-392 | "Edit Name" clears `contextMenuField`, and "Save" only updates when `contextMenuField` is set, so a rename is never saved | right-click a field, choose Edit Name, type "X", press Save | the field the dialog was opened for is relabelled "X" | high (not executed) | Editor.RenameAsWrittenIsLost | Editor.RenameRenamesField |
| src/components/canvas/CanvasEditor.tsx:650-653 | field geometry is multiplied by `scale` and then drawn inside a Stage already scaled by `scale * zoom`, so fields are scaled twice | scale 0.5, zoom 1, stage width 800, field at x = 100: drawn at 1/16 of the width, exported at 1/8 | fields appear where the export puts them, at every scale | medium (not executed) | Editor.FieldDrawnDoubleScaled | Editor.CorrectedDrawingAgreesWithExport |
