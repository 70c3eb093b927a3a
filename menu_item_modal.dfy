/**
  The admin's menu-item editor of src/components/admin/MenuItemModal.tsx:
  the form's variant and add-on lists and their edits, and `handleSave`,
  which validates the form, derives the slug and the payload, writes the
  item, and replaces its variants and add-ons with the named entries of the
  form's lists.
 */
module MenuItemEditor {
  import opened Common

  // ---------------------------------------------------------------------
  // Slug
  // ---------------------------------------------------------------------

  /** `.replace(/\s+/g, '-')`: every maximal run of whitespace becomes one '-'. */
  function Hyphenate(s: string): (r: string)
    ensures |r| <= |s|
    ensures forall k :: 0 <= k < |r| ==> !IsJsSpace(r[k])
    decreases |s|
  {
    if s == [] then []
    else if IsJsSpace(s[0]) then
      var t := Hyphenate(TrimStart(s[1..]));
      assert !IsJsSpace('-');
      "-" + t
    else
      [s[0]] + Hyphenate(s[1..])
  }

  /** Text without whitespace is left as it is. */
  lemma {:induction false} HyphenateSpaceFree(s: string)
    requires forall k :: 0 <= k < |s| ==> !IsJsSpace(s[k])
    ensures Hyphenate(s) == s
  {
    if s != [] {
      HyphenateSpaceFree(s[1..]);
    }
  }

  lemma {:induction false} TrimStartSpaces(w: string, b: string)
    requires forall k :: 0 <= k < |w| ==> IsJsSpace(w[k])
    requires b == [] || !IsJsSpace(b[0])
    ensures TrimStart(w + b) == b
  {
    if w == [] {
      assert w + b == b;
    } else {
      assert (w + b)[1..] == w[1..] + b;
      TrimStartSpaces(w[1..], b);
    }
  }

  /**
    A run of whitespace between a space-free text and a text that does not
    start with whitespace turns into exactly one '-'.
   */
  lemma {:induction false} HyphenateRun(a: string, w: string, b: string)
    requires forall k :: 0 <= k < |a| ==> !IsJsSpace(a[k])
    requires w != [] && forall k :: 0 <= k < |w| ==> IsJsSpace(w[k])
    requires b == [] || !IsJsSpace(b[0])
    ensures Hyphenate(a + w + b) == a + "-" + Hyphenate(b)
  {
    if a == [] {
      assert a + w + b == [w[0]] + (w[1..] + b);
      TrimStartSpaces(w[1..], b);
      HyphenateSpaceRun(w[0], w[1..] + b, b);
    } else {
      var t := a[1..] + w + b;
      HyphenateRun(a[1..], w, b);
      HyphenateKeeps(a[0], t);
      HyphenateRunStep(a, w, b, t, Hyphenate(b));
    }
  }

  /** Putting the first character of a back in front of the rest of the text. */
  lemma HyphenateRunStep(a: string, w: string, b: string, t: string, hb: string)
    requires a != [] && t == a[1..] + w + b
    ensures [a[0]] + t == a + w + b
    ensures [a[0]] + (a[1..] + "-" + hb) == a + "-" + hb
  {
    assert a == [a[0]] + a[1..];
  }

  /** A leading whitespace character takes the blanks after it along into one '-'. */
  lemma HyphenateSpaceRun(c: char, t: string, b: string)
    requires IsJsSpace(c) && TrimStart(t) == b
    ensures Hyphenate([c] + t) == "-" + Hyphenate(b)
  {
    assert ([c] + t)[1..] == t;
  }

  /** A leading non-space character is kept as it is. */
  lemma HyphenateKeeps(c: char, t: string)
    requires !IsJsSpace(c)
    ensures Hyphenate([c] + t) == [c] + Hyphenate(t)
  {
    assert ([c] + t)[1..] == t;
  }

  predicate IsSlugChar(c: char) {
    ('a' <= c <= 'z') || ('0' <= c <= '9') || c == '-'
  }

  /** `name.toLowerCase().replace(/\s+/g, '-').replace(/[^a-z0-9-]/g, '')`. */
  function Slug(name: string): (r: string)
    ensures forall k :: 0 <= k < |r| ==> IsSlugChar(r[k])
    ensures |r| <= |name|
  {
    Filter(Hyphenate(Lower(name)), IsSlugChar)
  }

  /** A slug is its own slug. */
  lemma SlugIdempotent(name: string)
    ensures Slug(Slug(name)) == Slug(name)
  {
    var s := Slug(name);
    assert Lower(s) == s;
    HyphenateSpaceFree(s);
    FilterKeepsAll(s, IsSlugChar);
  }

  /** A name that is already lower-case letters, digits and hyphens is its own slug. */
  lemma SlugOfSlugChars(name: string)
    requires forall k :: 0 <= k < |name| ==> IsSlugChar(name[k])
    ensures Slug(name) == name
  {
    assert Lower(name) == name;
    HyphenateSpaceFree(name);
    FilterKeepsAll(name, IsSlugChar);
  }

  // ---------------------------------------------------------------------
  // The form's lists
  // ---------------------------------------------------------------------

  /** A `Partial<Variant>` of the form. */
  datatype VariantDraft = VariantDraft(name: Option<string>, priceDelta: Option<int>, isDefault: Option<bool>)

  /** A `Partial<AddOn>` of the form. */
  datatype AddOnDraft = AddOnDraft(name: Option<string>, price: Option<int>)

  /** `xs.map((x, j) => j === i ? f(x) : x)`: the edit of one field of entry i. */
  function EditAt<T>(xs: seq<T>, i: int, f: T -> T): (r: seq<T>)
    ensures |r| == |xs|
    ensures forall j :: 0 <= j < |xs| && j != i ==> r[j] == xs[j]
    ensures 0 <= i < |xs| ==> r[i] == f(xs[i])
  {
    seq(|xs|, j requires 0 <= j < |xs| => if j == i then f(xs[j]) else xs[j])
  }

  /** `xs.filter((_, j) => j !== i)`: the delete button of entry i. */
  function RemoveAt<T>(xs: seq<T>, i: int): (r: seq<T>)
    ensures 0 <= i < |xs| ==> |r| == |xs| - 1
    ensures 0 <= i < |xs| ==> forall j :: 0 <= j < |r| ==> r[j] == (if j < i then xs[j] else xs[j + 1])
    ensures !(0 <= i < |xs|) ==> r == xs
  {
    if 0 <= i < |xs| then xs[..i] + xs[i + 1..] else xs
  }

  /** Adding an entry and deleting it again restores the list. */
  lemma AddThenRemove<T>(xs: seq<T>, e: T)
    ensures RemoveAt(xs + [e], |xs|) == xs
  {
    assert (xs + [e])[..|xs|] == xs;
  }

  /** The "Add" button of the variants list. */
  function AddVariant(vs: seq<VariantDraft>): seq<VariantDraft> {
    vs + [VariantDraft(Some(""), Some(0), None)]
  }

  /** The "Add" button of the add-ons list. */
  function AddAddOn(as_: seq<AddOnDraft>): seq<AddOnDraft> {
    as_ + [AddOnDraft(Some(""), Some(0))]
  }

  /** The name input of variant i. */
  function SetVariantName(vs: seq<VariantDraft>, i: int, name: string): seq<VariantDraft> {
    EditAt(vs, i, (v: VariantDraft) => v.(name := Some(name)))
  }

  /** The price input of variant i. */
  function SetVariantDelta(vs: seq<VariantDraft>, i: int, delta: int): seq<VariantDraft> {
    EditAt(vs, i, (v: VariantDraft) => v.(priceDelta := Some(delta)))
  }

  /** The name input of add-on i. */
  function SetAddOnName(as_: seq<AddOnDraft>, i: int, name: string): seq<AddOnDraft> {
    EditAt(as_, i, (a: AddOnDraft) => a.(name := Some(name)))
  }

  /** The price input of add-on i. */
  function SetAddOnPrice(as_: seq<AddOnDraft>, i: int, price: int): seq<AddOnDraft> {
    EditAt(as_, i, (a: AddOnDraft) => a.(price := Some(price)))
  }

  /**
    A fresh entry is unnamed, so it is dropped on save until it is given a
    name; naming it keeps every other entry as it was.
   */
  lemma NewEntryNeedsAName(vs: seq<VariantDraft>, name: string)
    ensures !Truthy(AddVariant(vs)[|vs|].name)
    ensures var named := SetVariantName(AddVariant(vs), |vs|, name);
      named[..|vs|] == vs && named[|vs|].name == Some(name)
  {
    var named := SetVariantName(AddVariant(vs), |vs|, name);
    assert forall j :: 0 <= j < |vs| ==> named[j] == vs[j];
  }

  // ---------------------------------------------------------------------
  // The rows handleSave writes
  // ---------------------------------------------------------------------

  datatype VariantRow = VariantRow(
    cafeId: string, menuItemId: string, name: string, priceDelta: int,
    isDefault: bool, isAvailable: bool, sortOrder: nat)

  datatype AddOnRow = AddOnRow(
    cafeId: string, menuItemId: string, name: string, price: int,
    isAvailable: bool, sortOrder: nat)

  function NamedVariants(vs: seq<VariantDraft>): seq<VariantDraft> {
    Filter(vs, (v: VariantDraft) => Truthy(v.name))
  }

  function NamedAddOns(as_: seq<AddOnDraft>): seq<AddOnDraft> {
    Filter(as_, (a: AddOnDraft) => Truthy(a.name))
  }

  /**
    The variant rows: the named drafts in form order, numbered by their
    position among the kept ones, default price delta 0, default flag
    "first kept row", always available.
   */
  function VariantRows(cafeId: string, itemId: string, vs: seq<VariantDraft>): (rows: seq<VariantRow>)
    ensures |rows| == |NamedVariants(vs)|
    ensures forall i :: 0 <= i < |rows| ==>
      var v := NamedVariants(vs)[i];
      && rows[i].sortOrder == i && rows[i].name == v.name.value && rows[i].name != ""
      && rows[i].cafeId == cafeId && rows[i].menuItemId == itemId && rows[i].isAvailable
      && rows[i].priceDelta == (if v.priceDelta.Some? then v.priceDelta.value else 0)
      && rows[i].isDefault == (if v.isDefault.Some? then v.isDefault.value else i == 0)
  {
    var kept := NamedVariants(vs);
    seq(|kept|, i requires 0 <= i < |kept| =>
      VariantRow(cafeId, itemId, kept[i].name.value, kept[i].priceDelta.GetOr(0),
                 kept[i].isDefault.GetOr(i == 0), true, i))
  }

  /** The add-on rows: the named drafts in form order, numbered, default price 0, available. */
  function AddOnRows(cafeId: string, itemId: string, as_: seq<AddOnDraft>): (rows: seq<AddOnRow>)
    ensures |rows| == |NamedAddOns(as_)|
    ensures forall i :: 0 <= i < |rows| ==>
      var a := NamedAddOns(as_)[i];
      && rows[i].sortOrder == i && rows[i].name == a.name.value && rows[i].name != ""
      && rows[i].cafeId == cafeId && rows[i].menuItemId == itemId && rows[i].isAvailable
      && rows[i].price == (if a.price.Some? then a.price.value else 0)
  {
    var kept := NamedAddOns(as_);
    seq(|kept|, i requires 0 <= i < |kept| =>
      AddOnRow(cafeId, itemId, kept[i].name.value, kept[i].price.GetOr(0), true, i))
  }

  /**
    When no draft sets its default flag, exactly the first saved variant is
    the default; when every draft is named, the rows follow the drafts one
    for one.
   */
  lemma VariantDefaults(cafeId: string, itemId: string, vs: seq<VariantDraft>)
    ensures (forall k :: 0 <= k < |vs| ==> vs[k].isDefault.None?) ==>
      var rows := VariantRows(cafeId, itemId, vs);
      forall i :: 0 <= i < |rows| ==> (rows[i].isDefault <==> i == 0)
    ensures (forall k :: 0 <= k < |vs| ==> Truthy(vs[k].name)) ==>
      var rows := VariantRows(cafeId, itemId, vs);
      |rows| == |vs| && forall i :: 0 <= i < |rows| ==> rows[i].name == vs[i].name.value
  {
    var kept := NamedVariants(vs);
    if forall k :: 0 <= k < |vs| ==> vs[k].isDefault.None? {
      forall i | 0 <= i < |kept| ensures kept[i].isDefault.None? {
        assert kept[i] in vs;
      }
    }
    if forall k :: 0 <= k < |vs| ==> Truthy(vs[k].name) {
      FilterKeepsAll(vs, (v: VariantDraft) => Truthy(v.name));
    }
  }

  // ---------------------------------------------------------------------
  // handleSave
  // ---------------------------------------------------------------------

  /** The form's fields; `existingId` is the edited item's id (None for a new item). */
  datatype Form = Form(
    existingId: Option<string>,
    name: string,
    description: string,
    basePrice: int,
    categoryId: string,
    isVeg: bool,
    isAvailable: bool,
    isFeatured: bool,
    prepTime: int,
    imageUrl: string,
    variants: seq<VariantDraft>,
    addOns: seq<AddOnDraft>)

  datatype Payload = Payload(
    cafeId: string, categoryId: string, name: string, slug: string, description: string,
    basePrice: int, isVeg: bool, isAvailable: bool, isFeatured: bool, prepTime: int,
    imageUrl: Option<string>)

  /** The save button's check: a name that is not only whitespace, and a category. */
  predicate CanSave(f: Form) {
    Trim(f.name) != "" && f.categoryId != ""
  }

  /** `isNew = !item?.id`. */
  predicate IsNew(f: Form) {
    !Truthy(f.existingId)
  }

  /** The `menu_items` payload; an empty image URL is stored as null. */
  function PayloadOf(f: Form, cafeId: string): (p: Payload)
    ensures p.imageUrl.None? <==> f.imageUrl == ""
    ensures p.imageUrl.Some? ==> p.imageUrl.value == f.imageUrl
    ensures p.slug == Slug(f.name) && p.name == f.name && p.cafeId == cafeId && p.categoryId == f.categoryId
  {
    Payload(cafeId, f.categoryId, f.name, Slug(f.name), f.description, f.basePrice, f.isVeg,
            f.isAvailable, f.isFeatured, f.prepTime, if f.imageUrl == "" then None else Some(f.imageUrl))
  }

  datatype Write =
    | InsertItem(payload: Payload)
    | UpdateItem(itemId: string, payload: Payload)
    | DeleteVariants(itemId: string)
    | DeleteAddOns(itemId: string)
    | InsertVariants(variantRows: seq<VariantRow>)
    | InsertAddOns(addOnRows: seq<AddOnRow>)

  datatype SaveResult = Invalid | Failed | Saved(created: bool)

  /**
    The answers of the item write: the new item's id when an insert succeeds
    (None when it reports an error), and whether an update succeeds. The
    results of the deletes and of the variant and add-on inserts are not
    checked by the handler.
   */
  datatype SaveOutcomes = SaveOutcomes(insertedId: Option<string>, updateOk: bool)

  /** The writes for the variant and add-on lists, once the item id is known. */
  function ListWrites(f: Form, cafeId: string, itemId: string): seq<Write> {
    var vRows := VariantRows(cafeId, itemId, f.variants);
    var aRows := AddOnRows(cafeId, itemId, f.addOns);
    (if vRows != [] then [InsertVariants(vRows)] else []) +
    (if aRows != [] then [InsertAddOns(aRows)] else [])
  }

  datatype SaveRun = SaveRun(writes: seq<Write>, result: SaveResult)

  /** `handleSave` as a function of the form and the write outcomes. */
  function SaveOf(f: Form, cafeId: string, out: SaveOutcomes): SaveRun {
    if !CanSave(f) then SaveRun([], Invalid)
    else if IsNew(f) then
      var ins := [InsertItem(PayloadOf(f, cafeId))];
      match out.insertedId
      case None => SaveRun(ins, Failed)
      case Some(id) => SaveRun(ins + ListWrites(f, cafeId, id), Saved(true))
    else
      var id := f.existingId.value;
      var upd := [UpdateItem(id, PayloadOf(f, cafeId))];
      if !out.updateOk then SaveRun(upd, Failed)
      else SaveRun(upd + [DeleteVariants(id), DeleteAddOns(id)] + ListWrites(f, cafeId, id), Saved(false))
  }

  /** An invalid form writes nothing and is the only one refused. */
  lemma InvalidFormWritesNothing(f: Form, cafeId: string, out: SaveOutcomes)
    ensures SaveOf(f, cafeId, out).result == Invalid <==> !CanSave(f)
    ensures !CanSave(f) ==> SaveOf(f, cafeId, out).writes == []
  {
  }

  /** The variant and add-on writes are inserts only, each for the non-empty rows. */
  lemma ListWritesAreInserts(f: Form, cafeId: string, itemId: string)
    ensures forall k :: 0 <= k < |ListWrites(f, cafeId, itemId)| ==>
      ListWrites(f, cafeId, itemId)[k].InsertVariants? || ListWrites(f, cafeId, itemId)[k].InsertAddOns?
    ensures InsertVariants(VariantRows(cafeId, itemId, f.variants)) in ListWrites(f, cafeId, itemId)
      <==> NamedVariants(f.variants) != []
    ensures InsertAddOns(AddOnRows(cafeId, itemId, f.addOns)) in ListWrites(f, cafeId, itemId)
      <==> NamedAddOns(f.addOns) != []
  {
    var vRows := VariantRows(cafeId, itemId, f.variants);
    var aRows := AddOnRows(cafeId, itemId, f.addOns);
    assert vRows == [] <==> NamedVariants(f.variants) == [];
    assert aRows == [] <==> NamedAddOns(f.addOns) == [];
  }

  /**
    A new item is inserted first and is never updated nor has anything
    deleted; when the insert returns an id, the lists follow under that id.
   */
  lemma NewItemIsInserted(f: Form, cafeId: string, out: SaveOutcomes)
    requires CanSave(f) && IsNew(f)
    ensures var run := SaveOf(f, cafeId, out);
      && run.writes != [] && run.writes[0] == InsertItem(PayloadOf(f, cafeId))
      && (run.result == Saved(true) <==> out.insertedId.Some?)
      && (out.insertedId.Some? ==> run.writes[1..] == ListWrites(f, cafeId, out.insertedId.value))
      && (out.insertedId.None? ==> run.writes == [InsertItem(PayloadOf(f, cafeId))])
  {
  }

  /**
    An existing item is updated by its id; only when that succeeds are its
    old variants and add-ons deleted, and both deletes come before any new
    row is inserted.
   */
  lemma ExistingItemIsReplaced(f: Form, cafeId: string, out: SaveOutcomes)
    requires CanSave(f) && !IsNew(f)
    ensures var run := SaveOf(f, cafeId, out);
      var id := f.existingId.value;
      && |run.writes| >= 1 && run.writes[0] == UpdateItem(id, PayloadOf(f, cafeId))
      && (run.result == Saved(false) <==> out.updateOk)
      && (!out.updateOk ==> run.writes == [UpdateItem(id, PayloadOf(f, cafeId))])
      && (out.updateOk ==>
            |run.writes| >= 3
            && run.writes[1] == DeleteVariants(id) && run.writes[2] == DeleteAddOns(id)
            && run.writes[3..] == ListWrites(f, cafeId, id))
  {
    var id := f.existingId.value;
    var upd := [UpdateItem(id, PayloadOf(f, cafeId))];
    if out.updateOk {
      var lw := ListWrites(f, cafeId, id);
      var w := upd + [DeleteVariants(id), DeleteAddOns(id)] + lw;
      assert SaveOf(f, cafeId, out).writes == w;
      assert w[3..] == lw;
    }
  }

  /** The id the lists are saved under. */
  function SavedId(f: Form, out: SaveOutcomes): string {
    if IsNew(f) then out.insertedId.GetOr("") else f.existingId.GetOr("")
  }

  /** The editor: the writes `handleSave` has made. */
  class MenuItemModal {
    var writes: seq<Write>

    constructor ()
      ensures writes == []
    {
      writes := [];
    }

    method HandleSave(f: Form, cafeId: string, out: SaveOutcomes) returns (result: SaveResult)
      modifies this
      ensures writes == old(writes) + SaveOf(f, cafeId, out).writes
      ensures result == SaveOf(f, cafeId, out).result
    {
      if !CanSave(f) {
        return Invalid;
      }
      var payload := PayloadOf(f, cafeId);
      var itemId: string;
      var head: seq<Write>;
      if IsNew(f) {
        head := [InsertItem(payload)];
        if out.insertedId.None? {
          writes := writes + head;
          return Failed;
        }
        itemId := out.insertedId.value;
      } else {
        itemId := f.existingId.value;
        if !out.updateOk {
          writes := writes + [UpdateItem(itemId, payload)];
          return Failed;
        }
        head := [UpdateItem(itemId, payload), DeleteVariants(itemId), DeleteAddOns(itemId)];
      }
      var lists := InsertLists(f, cafeId, itemId);
      SaveIsHeadThenLists(f, cafeId, out);
      writes := writes + (head + lists);
      result := Saved(IsNew(f));
    }
  }

  lemma SaveIsHeadThenLists(f: Form, cafeId: string, out: SaveOutcomes)
    requires CanSave(f)
    requires IsNew(f) ==> out.insertedId.Some?
    requires !IsNew(f) ==> out.updateOk
    ensures var id := SavedId(f, out);
      var p := PayloadOf(f, cafeId);
      SaveOf(f, cafeId, out).writes ==
        (if IsNew(f) then [InsertItem(p)] else [UpdateItem(id, p), DeleteVariants(id), DeleteAddOns(id)])
        + ListWrites(f, cafeId, id)
  {
    if IsNew(f) {
      NewSaveIsHeadThenLists(f, cafeId, out);
    } else {
      ExistingSaveIsHeadThenLists(f, cafeId, out);
    }
  }

  /** A saved new item: its insert, then the lists under the returned id. */
  lemma NewSaveIsHeadThenLists(f: Form, cafeId: string, out: SaveOutcomes)
    requires CanSave(f) && IsNew(f) && out.insertedId.Some?
    ensures SaveOf(f, cafeId, out).writes
      == [InsertItem(PayloadOf(f, cafeId))] + ListWrites(f, cafeId, out.insertedId.value)
  {
  }

  /** A saved existing item: its update and both deletes, then the lists under its id. */
  lemma ExistingSaveIsHeadThenLists(f: Form, cafeId: string, out: SaveOutcomes)
    requires CanSave(f) && !IsNew(f) && out.updateOk
    ensures var id := f.existingId.value;
      SaveOf(f, cafeId, out).writes
        == [UpdateItem(id, PayloadOf(f, cafeId)), DeleteVariants(id), DeleteAddOns(id)] + ListWrites(f, cafeId, id)
  {
    var id := f.existingId.value;
    var p := PayloadOf(f, cafeId);
    assert [UpdateItem(id, p)] + [DeleteVariants(id), DeleteAddOns(id)]
      == [UpdateItem(id, p), DeleteVariants(id), DeleteAddOns(id)];
  }

  /** The tail of `handleSave`: insert the named variants, then the named add-ons. */
  method InsertLists(f: Form, cafeId: string, itemId: string) returns (lists: seq<Write>)
    ensures lists == ListWrites(f, cafeId, itemId)
  {
    lists := [];
    if |f.variants| > 0 {
      var vRows := VariantRows(cafeId, itemId, f.variants);
      if |vRows| > 0 {
        lists := lists + [InsertVariants(vRows)];
      }
    } else {
      assert NamedVariants(f.variants) == [];
    }
    if |f.addOns| > 0 {
      var aRows := AddOnRows(cafeId, itemId, f.addOns);
      if |aRows| > 0 {
        lists := lists + [InsertAddOns(aRows)];
      }
    } else {
      assert NamedAddOns(f.addOns) == [];
    }
  }
}
