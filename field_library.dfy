/** The field library: the table of the five field types with their default
    sizes, the two categories that group them, the search filter, and the
    drag state. */
module FieldLibrary {
  import opened Common
  import opened Fields

  /** One entry of the field-type table (its icon is left out). */
  datatype FieldType = FieldType(kind: FieldKind, name: string, description: string, color: string, width: real, height: real)

  const TextEntry := FieldType(Text, "Text Field", "Add text content like names, titles, descriptions", "bg-blue-500", 120.0, 28.0)
  const DateEntry := FieldType(Date, "Date Field", "Display dates in various formats", "bg-green-500", 100.0, 28.0)
  const SignatureEntry := FieldType(Signature, "Signature", "Place signature images or text", "bg-purple-500", 140.0, 50.0)
  const QrEntry := FieldType(Qr, "QR Code", "Generate QR codes for verification", "bg-orange-500", 60.0, 60.0)
  const CertificateIdEntry := FieldType(CertificateId, "Certificate ID", "Unique identifier for the certificate", "bg-gray-500", 110.0, 28.0)

  /** `fieldTypes`, in display order. */
  const FieldTypes: seq<FieldType> := [TextEntry, DateEntry, SignatureEntry, QrEntry, CertificateIdEntry]

  /** The default size of a new field of the given type. */
  function DefaultSize(k: FieldKind): (r: (real, real))
    ensures exists i :: 0 <= i < |FieldTypes| && FieldTypes[i].kind == k && r == (FieldTypes[i].width, FieldTypes[i].height)
  {
    match k
    case Text => assert FieldTypes[0].kind == Text; (120.0, 28.0)
    case Date => assert FieldTypes[1].kind == Date; (100.0, 28.0)
    case Signature => assert FieldTypes[2].kind == Signature; (140.0, 50.0)
    case Qr => assert FieldTypes[3].kind == Qr; (60.0, 60.0)
    case CertificateId => assert FieldTypes[4].kind == CertificateId; (110.0, 28.0)
  }

  /** Every type has exactly one entry. */
  lemma EachKindOnce(k: FieldKind)
    ensures exists i :: 0 <= i < |FieldTypes| && FieldTypes[i].kind == k
    ensures forall i, j :: 0 <= i < j < |FieldTypes| ==> FieldTypes[i].kind != FieldTypes[j].kind
  {
    var _ := DefaultSize(k);
  }

  /** Every default size is large enough for the editor's resize floor of
      50 by 20. */
  lemma DefaultSizesPositive(k: FieldKind)
    ensures DefaultSize(k).0 >= 50.0 && DefaultSize(k).1 >= 20.0
  {
  }

  /** The entries whose type is among `kinds`, in table order. */
  function OfKinds(types: seq<FieldType>, kinds: seq<FieldKind>): (r: seq<FieldType>)
    ensures |r| <= |types|
  {
    if types == [] then []
    else (if types[0].kind in kinds then [types[0]] else []) + OfKinds(types[1..], kinds)
  }

  /** An entry is kept exactly when its type is among `kinds`. */
  lemma {:induction false} OfKindsMembers(types: seq<FieldType>, kinds: seq<FieldKind>, t: FieldType)
    ensures t in OfKinds(types, kinds) <==> t in types && t.kind in kinds
  {
    if types != [] {
      OfKindsMembers(types[1..], kinds, t);
      assert t in types <==> t == types[0] || t in types[1..];
    }
  }

  datatype Category = Category(id: string, name: string, description: string, fields: seq<FieldType>)

  const BasicKinds: seq<FieldKind> := [Text, Date, CertificateId]
  const VisualKinds: seq<FieldKind> := [Signature, Qr]

  const Categories: seq<Category> := [
    Category("basic", "Basic Fields", "Essential text and data fields", OfKinds(FieldTypes, BasicKinds)),
    Category("visual", "Visual Elements", "Images, signatures, and visual components", OfKinds(FieldTypes, VisualKinds))
  ]

  /** The basic category lists text, date and certificate id, in table
      order. */
  lemma BasicCategoryInTableOrder()
    ensures Categories[0].fields == [TextEntry, DateEntry, CertificateIdEntry]
  {
    var t := FieldTypes;
    assert t[5..] == [];
    assert OfKinds(t[4..], BasicKinds) == [t[4]] + OfKinds(t[5..], BasicKinds);
    assert OfKinds(t[3..], BasicKinds) == OfKinds(t[4..], BasicKinds);
    assert OfKinds(t[2..], BasicKinds) == OfKinds(t[3..], BasicKinds);
    assert OfKinds(t[1..], BasicKinds) == [t[1]] + OfKinds(t[2..], BasicKinds);
    assert OfKinds(t, BasicKinds) == [t[0]] + OfKinds(t[1..], BasicKinds);
    assert Categories[0].fields == OfKinds(t, BasicKinds);
  }

  /** The visual category lists signature and QR code, in table order. */
  lemma VisualCategoryInTableOrder()
    ensures Categories[1].fields == [SignatureEntry, QrEntry]
  {
    var t := FieldTypes;
    assert t[5..] == [];
    assert OfKinds(t[4..], VisualKinds) == OfKinds(t[5..], VisualKinds);
    assert OfKinds(t[3..], VisualKinds) == [t[3]] + OfKinds(t[4..], VisualKinds);
    assert OfKinds(t[2..], VisualKinds) == [t[2]] + OfKinds(t[3..], VisualKinds);
    assert OfKinds(t[1..], VisualKinds) == OfKinds(t[2..], VisualKinds);
    assert OfKinds(t, VisualKinds) == OfKinds(t[1..], VisualKinds);
    assert Categories[1].fields == OfKinds(t, VisualKinds);
  }

  /** Every entry is in exactly one of the two categories. */
  lemma CategoriesPartitionTypes(t: FieldType)
    requires t in FieldTypes
    ensures t in Categories[0].fields <==> t !in Categories[1].fields
  {
    OfKindsMembers(FieldTypes, BasicKinds, t);
    OfKindsMembers(FieldTypes, VisualKinds, t);
  }

  // ---- Search

  /** The search term occurs, case-insensitively (ASCII), in the entry's
      name or description. */
  predicate Matches(t: FieldType, term: string) {
    Includes(ToLower(t.name), ToLower(term)) || Includes(ToLower(t.description), ToLower(term))
  }

  function FilterFields(types: seq<FieldType>, term: string): (r: seq<FieldType>)
    ensures |r| <= |types|
  {
    if types == [] then []
    else (if Matches(types[0], term) then [types[0]] else []) + FilterFields(types[1..], term)
  }

  /** The filter keeps exactly the matching entries. */
  lemma {:induction false} FilterFieldsMembers(types: seq<FieldType>, term: string, t: FieldType)
    ensures t in FilterFields(types, term) <==> t in types && Matches(t, term)
  {
    if types != [] {
      FilterFieldsMembers(types[1..], term, t);
      assert types == [types[0]] + types[1..];
    }
  }

  /** The filter keeps order: filtering a concatenation concatenates the
      filtered parts. */
  lemma {:induction false} FilterFieldsAppend(a: seq<FieldType>, b: seq<FieldType>, term: string)
    ensures FilterFields(a + b, term) == FilterFields(a, term) + FilterFields(b, term)
  {
    if a != [] {
      FilterFieldsAppend(a[1..], b, term);
      assert (a + b)[0] == a[0];
      assert (a + b)[1..] == a[1..] + b;
      var x := if Matches(a[0], term) then [a[0]] else [];
      assert FilterFields(a + b, term) == x + FilterFields(a[1..] + b, term);
      assert FilterFields(a, term) == x + FilterFields(a[1..], term);
      TypesAssoc(x, FilterFields(a[1..], term), FilterFields(b, term));
    } else {
      assert a + b == b;
    }
  }

  lemma TypesAssoc(x: seq<FieldType>, y: seq<FieldType>, z: seq<FieldType>)
    ensures x + (y + z) == (x + y) + z
  {
  }

  /** The empty term matches every entry. */
  lemma EmptyTermMatches(t: FieldType)
    ensures Matches(t, "")
  {
    IncludesEmpty(ToLower(t.name));
  }

  lemma {:induction false} FilterEmptyTermKeepsAll(types: seq<FieldType>)
    ensures FilterFields(types, "") == types
  {
    if types != [] {
      EmptyTermMatches(types[0]);
      FilterEmptyTermKeepsAll(types[1..]);
    }
  }

  /** `filteredCategories`: each category's entries filtered, empty
      categories dropped. */
  function FilteredCategories(cats: seq<Category>, term: string): (r: seq<Category>)
    ensures |r| <= |cats|
  {
    if cats == [] then []
    else
      var c := Narrow(cats[0], term);
      (if c.fields != [] then [c] else []) + FilteredCategories(cats[1..], term)
  }

  /** A category with its entries filtered. */
  function Narrow(c: Category, term: string): (r: Category)
    ensures r.id == c.id && r.name == c.name && r.description == c.description
    ensures |r.fields| <= |c.fields|
  {
    c.(fields := FilterFields(c.fields, term))
  }

  /** The shown categories are exactly the narrowed categories that kept an
      entry. */
  lemma {:induction false} FilteredCategoriesMembers(cats: seq<Category>, term: string, c: Category)
    ensures c in FilteredCategories(cats, term) <==> exists i :: 0 <= i < |cats| && c == Narrow(cats[i], term) && c.fields != []
  {
    if cats != [] {
      FilteredCategoriesMembers(cats[1..], term, c);
      assert forall i :: 1 <= i < |cats| ==> cats[i] == cats[1..][i - 1];
      if c == Narrow(cats[0], term) && c.fields != [] {
        assert c in FilteredCategories(cats, term);
      }
    }
  }

  /** Category order is kept: filtering a concatenation concatenates the
      filtered parts. */
  lemma {:induction false} FilteredCategoriesAppend(a: seq<Category>, b: seq<Category>, term: string)
    ensures FilteredCategories(a + b, term) == FilteredCategories(a, term) + FilteredCategories(b, term)
  {
    if a != [] {
      FilteredCategoriesAppend(a[1..], b, term);
      assert (a + b)[0] == a[0];
      assert (a + b)[1..] == a[1..] + b;
      var x := if Narrow(a[0], term).fields != [] then [Narrow(a[0], term)] else [];
      assert FilteredCategories(a + b, term) == x + FilteredCategories(a[1..] + b, term);
      assert FilteredCategories(a, term) == x + FilteredCategories(a[1..], term);
      CategoriesAssoc(x, FilteredCategories(a[1..], term), FilteredCategories(b, term));
    } else {
      assert a + b == b;
    }
  }

  lemma CategoriesAssoc(x: seq<Category>, y: seq<Category>, z: seq<Category>)
    ensures x + (y + z) == (x + y) + z
  {
  }

  /** An entry of one of the categories is listed after a search exactly
      when it matches the term. */
  lemma ListedIffMatchesIn(cats: seq<Category>, term: string, t: FieldType, k: nat)
    requires k < |cats| && t in cats[k].fields
    ensures (exists c :: c in FilteredCategories(cats, term) && t in c.fields) <==> Matches(t, term)
  {
    if Matches(t, term) {
      var c := Narrow(cats[k], term);
      FilterFieldsMembers(cats[k].fields, term, t);
      FilteredCategoriesMembers(cats, term, c);
    } else {
      forall c | c in FilteredCategories(cats, term) ensures t !in c.fields {
        FilteredCategoriesMembers(cats, term, c);
        var i :| 0 <= i < |cats| && c == Narrow(cats[i], term);
        FilterFieldsMembers(cats[i].fields, term, t);
      }
    }
  }

  /** An entry of the table is listed after a search exactly when it
      matches the term. */
  lemma ListedIffMatches(t: FieldType, term: string)
    requires t in FieldTypes
    ensures (exists c :: c in FilteredCategories(Categories, term) && t in c.fields) <==> Matches(t, term)
  {
    CategoriesPartitionTypes(t);
    ListedIffMatchesIn(Categories, term, t, if t in Categories[0].fields then 0 else 1);
  }

  /** The empty term drops no category that has entries. */
  lemma {:induction false} EmptyTermKeepsCategories(cats: seq<Category>)
    requires forall k :: 0 <= k < |cats| ==> cats[k].fields != []
    ensures FilteredCategories(cats, "") == cats
  {
    if cats != [] {
      FilterEmptyTermKeepsAll(cats[0].fields);
      assert Narrow(cats[0], "") == cats[0];
      EmptyTermKeepsCategories(cats[1..]);
      assert [cats[0]] + cats[1..] == cats;
    }
  }

  /** With an empty search box, every category is shown with all its
      entries. */
  lemma EmptySearchKeepsEverything()
    ensures FilteredCategories(Categories, "") == Categories
  {
    BasicCategoryInTableOrder();
    VisualCategoryInTableOrder();
    EmptyTermKeepsCategories(Categories);
  }

  // ---- Drag state

  /** The library's drag state and the callbacks it has made to the page. */
  class LibraryState {
    var draggedField: Option<FieldKind>
    var dragStarts: seq<FieldKind>
    var added: seq<FieldKind>

    constructor()
      ensures draggedField == None && dragStarts == [] && added == []
    {
      draggedField := None;
      dragStarts := [];
      added := [];
    }

    /** The entry being dragged is highlighted. */
    predicate IsDragging(k: FieldKind)
      reads this
    {
      draggedField == Some(k)
    }

    /** `handleDragStart`: remembers the type and tells the page. */
    method DragStart(k: FieldKind)
      modifies this
      ensures draggedField == Some(k) && dragStarts == old(dragStarts) + [k] && added == old(added)
    {
      draggedField := Some(k);
      dragStarts := dragStarts + [k];
    }

    /** `handleDragEnd`: forgets the dragged type. */
    method DragEnd()
      modifies this
      ensures draggedField == None && dragStarts == old(dragStarts) && added == old(added)
    {
      draggedField := None;
    }

    /** `handleFieldClick`: asks the page to add a field of that type. */
    method Click(k: FieldKind)
      modifies this
      ensures added == old(added) + [k] && draggedField == old(draggedField) && dragStarts == old(dragStarts)
    {
      added := added + [k];
    }
  }

  /** A completed drag highlights nothing and leaves one drag-start call. */
  method DragAndDrop(state: LibraryState, k: FieldKind)
    modifies state
    ensures forall j :: !state.IsDragging(j)
    ensures state.dragStarts == old(state.dragStarts) + [k]
  {
    state.DragStart(k);
    assert state.IsDragging(k);
    state.DragEnd();
  }
}
