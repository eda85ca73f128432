/** The design side panel: the name a field is listed under, the style
    toggles and alignment buttons (each building one update for the selected
    field), the signature usage counts, and choosing or clearing a field's
    signature image. */
module SidePanel {
  import opened Common
  import opened Fields

  /** The first character upper-cased, the rest kept. */
  function Capitalise(s: string): (r: string)
    ensures |r| == |s|
    ensures s != "" ==> r[0] == UpperChar(s[0]) && r[1..] == s[1..]
  {
    if s == "" then "" else [UpperChar(s[0])] + s[1..]
  }

  /** `getFieldDisplayName`: the label, else the placeholder, else the
      capitalised type name. */
  function DisplayName(f: Field): (r: string)
    ensures r != ""
    ensures Truthy(f.fieldLabel) ==> r == f.fieldLabel.value
    ensures !Truthy(f.fieldLabel) && Truthy(f.placeholder) ==> r == f.placeholder.value
    ensures !Truthy(f.fieldLabel) && !Truthy(f.placeholder) ==> r == Capitalise(KindName(f.kind))
  {
    Or(f.fieldLabel, Or(f.placeholder, Capitalise(KindName(f.kind))))
  }

  /** The field's `name` never shows in the list. */
  lemma DisplayNameIgnoresName(f: Field, n: Option<string>)
    ensures DisplayName(f.(name := n)) == DisplayName(f)
  {
  }

  /** Unnamed fields of different types are listed under different names. */
  lemma UnnamedFieldsDistinguished(f: Field, g: Field)
    requires !Truthy(f.fieldLabel) && !Truthy(f.placeholder)
    requires !Truthy(g.fieldLabel) && !Truthy(g.placeholder)
    requires f.kind != g.kind
    ensures DisplayName(f) != DisplayName(g)
  {
    var a := Capitalise(KindName(f.kind));
    var b := Capitalise(KindName(g.kind));
    assert a[1] != b[1] || a[0] != b[0] || |a| != |b|;
  }

  /** A possibly-absent flag read as JavaScript truthiness. */
  function IsSet(flag: Option<bool>): bool {
    flag.Some? && flag.value
  }

  /** An update for the selected field's id, when a field is selected. */
  type Emitted = Option<(string, Update)>

  /** `toggleBold`: the negated flag, `undefined` counting as false. */
  function ToggleBold(selected: Option<Field>): (r: Emitted)
    ensures selected.None? <==> r.None?
    ensures selected.Some? ==> r == Some((selected.value.id, SetBold(!IsSet(selected.value.bold))))
  {
    if selected.Some? then Some((selected.value.id, SetBold(!IsSet(selected.value.bold)))) else None
  }

  function ToggleItalic(selected: Option<Field>): (r: Emitted)
    ensures selected.None? <==> r.None?
    ensures selected.Some? ==> r == Some((selected.value.id, SetItalic(!IsSet(selected.value.italic))))
  {
    if selected.Some? then Some((selected.value.id, SetItalic(!IsSet(selected.value.italic)))) else None
  }

  function ToggleUnderline(selected: Option<Field>): (r: Emitted)
    ensures selected.None? <==> r.None?
    ensures selected.Some? ==> r == Some((selected.value.id, SetUnderline(!IsSet(selected.value.underline))))
  {
    if selected.Some? then Some((selected.value.id, SetUnderline(!IsSet(selected.value.underline)))) else None
  }

  /** `setTextAlign`. */
  function SetAlign(selected: Option<Field>, align: TextAlign): (r: Emitted)
    ensures selected.None? <==> r.None?
    ensures selected.Some? ==> r == Some((selected.value.id, SetTextAlign(align)))
  {
    if selected.Some? then Some((selected.value.id, SetTextAlign(align))) else None
  }

  /** Applying a toggle flips exactly its own flag and leaves every other
      property of the field as it was. */
  lemma TogglesFlipOneFlag(f: Field)
    ensures Apply(f, ToggleBold(Some(f)).value.1) == f.(bold := Some(!IsSet(f.bold)))
    ensures Apply(f, ToggleItalic(Some(f)).value.1) == f.(italic := Some(!IsSet(f.italic)))
    ensures Apply(f, ToggleUnderline(Some(f)).value.1) == f.(underline := Some(!IsSet(f.underline)))
    ensures IsSet(Apply(f, ToggleBold(Some(f)).value.1).bold) == !IsSet(f.bold)
  {
  }

  /** Toggling twice restores the flag's truthiness (an absent flag comes
      back as an explicit `false`). */
  lemma ToggleTwiceRestores(f: Field)
    ensures var g := Apply(f, ToggleBold(Some(f)).value.1);
            IsSet(Apply(g, ToggleBold(Some(g)).value.1).bold) == IsSet(f.bold)
  {
  }

  /** The update targets the selected field. */
  lemma UpdatesTargetSelection(f: Field, align: TextAlign)
    ensures ToggleBold(Some(f)).value.0 == f.id && ToggleItalic(Some(f)).value.0 == f.id
    ensures ToggleUnderline(Some(f)).value.0 == f.id && SetAlign(Some(f), align).value.0 == f.id
  {
  }

  // ---- Signature usage

  /** A signature field that uses the signature `sigId`. */
  predicate Uses(f: Field, sigId: string) {
    f.kind == Signature && f.signatureImageId == Some(sigId)
  }

  /** `usageCount`: how many signature fields use the signature. */
  function UsageCount(fields: seq<Field>, sigId: string): (r: nat)
    ensures r <= |fields|
    ensures r == 0 <==> forall i :: 0 <= i < |fields| ==> !Uses(fields[i], sigId)
  {
    if fields == [] then 0
    else
      var rest := UsageCount(fields[1..], sigId);
      assert forall i :: 1 <= i < |fields| ==> fields[i] == fields[1..][i - 1];
      (if Uses(fields[0], sigId) then 1 else 0) + rest
  }

  /** The "Unused" badge shows exactly when no field uses the signature. */
  predicate ShowsUnused(fields: seq<Field>, sigId: string) {
    UsageCount(fields, sigId) == 0
  }

  /** The badge text beside a used signature. */
  function UsageBadge(n: nat): (r: string)
    ensures StartsWith(r, "Used in ")
    ensures n == 1 ==> r == "Used in 1 field"
    ensures n != 1 ==> r == "Used in " + NatToString(n) + " fields"
  {
    "Used in " + NatToString(n) + " field" + (if n != 1 then "s" else "")
  }

  /** The number of signature fields. */
  function SignatureFieldCount(fields: seq<Field>): (r: nat)
    ensures r <= |fields|
  {
    if fields == [] then 0
    else (if fields[0].kind == Signature then 1 else 0) + SignatureFieldCount(fields[1..])
  }

  /** The number of signature fields with a (non-empty) signature chosen. */
  function FieldsWithSignaturesCount(fields: seq<Field>): (r: nat)
    ensures r <= |fields|
  {
    if fields == [] then 0
    else (if fields[0].kind == Signature && Truthy(fields[0].signatureImageId) then 1 else 0)
         + FieldsWithSignaturesCount(fields[1..])
  }

  /** Fields with signatures are never more than the signature fields. */
  lemma {:induction false} WithSignaturesAtMostSignatureFields(fields: seq<Field>)
    ensures FieldsWithSignaturesCount(fields) <= SignatureFieldCount(fields)
  {
    if fields != [] {
      WithSignaturesAtMostSignatureFields(fields[1..]);
    }
  }

  /** A signature with a non-empty id is used by at most the fields with
      signatures. */
  lemma {:induction false} UsageAtMostFieldsWithSignatures(fields: seq<Field>, sigId: string)
    requires sigId != ""
    ensures UsageCount(fields, sigId) <= FieldsWithSignaturesCount(fields)
  {
    if fields != [] {
      UsageAtMostFieldsWithSignatures(fields[1..], sigId);
    }
  }

  /** Some field uses the signature (`fields.some(...)`). */
  predicate AnyUses(fields: seq<Field>, sigId: string) {
    exists i :: 0 <= i < |fields| && Uses(fields[i], sigId)
  }

  /** The "Unused signatures" line: signatures no field uses. */
  function UnusedCount(signatures: seq<SignatureImage>, fields: seq<Field>): (r: nat)
    ensures r <= |signatures|
  {
    if signatures == [] then 0
    else (if !AnyUses(fields, signatures[0].id) then 1 else 0) + UnusedCount(signatures[1..], fields)
  }

  /** The number of signatures whose card shows the "Unused" badge. */
  function BadgedUnused(signatures: seq<SignatureImage>, fields: seq<Field>): nat {
    if signatures == [] then 0
    else (if ShowsUnused(fields, signatures[0].id) then 1 else 0) + BadgedUnused(signatures[1..], fields)
  }

  /** The summary's unused count is the number of cards badged "Unused". */
  lemma {:induction false} UnusedCountMatchesBadges(signatures: seq<SignatureImage>, fields: seq<Field>)
    ensures UnusedCount(signatures, fields) == BadgedUnused(signatures, fields)
  {
    if signatures != [] {
      UnusedCountMatchesBadges(signatures[1..], fields);
      var id := signatures[0].id;
      assert ShowsUnused(fields, id) <==> !AnyUses(fields, id);
    }
  }

  // ---- Choosing the signature image

  /** The signature `select`: the empty option clears the choice. */
  function SelectSignature(value: string): (r: Update)
    ensures r.SetSignatureImage?
    ensures value == "" ==> r.signatureImageId == None
    ensures value != "" ==> r.signatureImageId == Some(value)
  {
    SetSignatureImage(if value == "" then None else Some(value))
  }

  /** The preview's remove button. */
  function RemoveSignature(): (r: Update)
    ensures r == SetSignatureImage(None)
  {
    SetSignatureImage(None)
  }

  /** Both ways of clearing leave the field without a signature, so that no
      signature counts it any more, and change nothing else. */
  lemma ClearingDetachesField(f: Field, sigId: string)
    ensures Apply(f, SelectSignature("")) == Apply(f, RemoveSignature()) == f.(signatureImageId := None)
    ensures !Uses(Apply(f, RemoveSignature()), sigId)
    ensures UsageCount([Apply(f, RemoveSignature())], sigId) == 0
  {
  }

  /** Choosing a signature for a signature field makes it one of that
      signature's users. */
  lemma ChoosingAttachesField(f: Field, sigId: string)
    requires f.kind == Signature && sigId != ""
    ensures Uses(Apply(f, SelectSignature(sigId)), sigId)
    ensures UsageCount([Apply(f, SelectSignature(sigId))], sigId) == 1
  {
  }
}
