/**
 * The new-product form (app/admin/products/new/page.tsx): the form state,
 * the slug generated from the name, the edits of the image and
 * specification lists, and the draft that submitting hands to the admin
 * products store.
 */
module NewProductForm {
  import opened Wrappers
  import opened Seqs
  import opened Text
  import opened Utils

  /** One row of the specification editor. */
  datatype Spec = Spec(key: string, value: string)

  /** Which half of a specification row an edit changes. */
  datatype SpecField = Key | Value

  /**
   * The product handed to `addProduct`. Price and stock are kept as the
   * raw field text, which the page passes through `parseFloat`/`parseInt`.
   */
  datatype ProductDraft = ProductDraft(
    name: string,
    slug: string,
    description: string,
    priceText: string,
    images: seq<string>,
    categoryId: string,
    specifications: map<string, string>,
    stockText: string,
    featured: bool,
    metaTitle: string,
    metaDescription: string,
    keywords: string)

  /** The outcome of submitting: an error toast, or the draft sent to the store. */
  datatype SubmitResult = Rejected | Submitted(draft: ProductDraft)

  /** Characters outside `[a-z0-9]`, whose runs the auto slug turns into one '-'. */
  predicate NotSlugAlnum(c: char) { !(IsAsciiLower(c) || IsDigit(c)) }

  /** `.replace(/(^-|-$)/g, "")`: drop one leading and one trailing '-'. */
  function StripEdgeDashes(s: string): (r: string)
    ensures |s| - 2 <= |r| <= |s|
    ensures var a := if s != [] && s[0] == '-' then 1 else 0;
            var b := if |s| > a && s[|s| - 1] == '-' then 1 else 0;
            a + b <= |s| && r == s[a..|s| - b]
    ensures r == s <==> s == [] || (s[0] != '-' && s[|s| - 1] != '-')
  {
    var t := if s != [] && s[0] == '-' then s[1..] else s;
    if t != [] && t[|t| - 1] == '-' then t[..|t| - 1] else t
  }

  /** The slug `handleNameChange` derives from the name. */
  function AutoSlug(name: string): string
  {
    StripEdgeDashes(CollapseRuns(Lower(name), NotSlugAlnum))
  }

  /** The auto slug is a slug: `[a-z0-9]` and single inner dashes only. */
  lemma AutoSlugIsSlug(name: string)
    ensures IsSlug(AutoSlug(name))
  {
    CollapsedNameChars(Lower(name));
    StripEdgeDashesIsSlug(CollapseRuns(Lower(name), NotSlugAlnum));
  }

  /** Collapsing the runs outside `[a-z0-9]` leaves slug characters without "--". */
  lemma CollapsedNameChars(s: string)
    ensures forall i :: 0 <= i < |CollapseRuns(s, NotSlugAlnum)| ==> IsSlugChar(CollapseRuns(s, NotSlugAlnum)[i])
    ensures NoDoubleDash(CollapseRuns(s, NotSlugAlnum))
  {
    assert NotSlugAlnum('-');
  }

  /** Dropping one dash at each end of slug characters without "--" leaves no dash at either end. */
  lemma StripEdgeDashesIsSlug(c: string)
    requires forall i :: 0 <= i < |c| ==> IsSlugChar(c[i])
    requires NoDoubleDash(c)
    ensures IsSlug(StripEdgeDashes(c))
  {
    var a := if c != [] && c[0] == '-' then 1 else 0;
    var t := c[a..];
    var b := if t != [] && t[|t| - 1] == '-' then |c| - 1 else |c|;
    var r := StripEdgeDashes(c);
    assert r == c[a..b];
    NoDoubleDashSlice(c, a, b);
    if r != [] {
      assert r[0] == c[a] && r[|r| - 1] == c[b - 1];
      if a == 1 {
        assert c[0] == '-' && c[1] != '-';
      }
      if b == |c| - 1 {
        assert c[|c| - 1] == '-' && c[|c| - 2] != '-';
      }
    }
  }

  /** `formData.name.toLowerCase().replace(/\s+/g, "-")`, the slug used when the slug field is empty. */
  function FallbackSlug(name: string): string
  {
    CollapseRuns(Lower(name), IsSpace)
  }

  /** The fallback slug contains no whitespace and is empty only for an empty name. */
  lemma FallbackSlugHasNoSpace(name: string)
    ensures forall i :: 0 <= i < |FallbackSlug(name)| ==> !IsSpace(FallbackSlug(name)[i])
    ensures FallbackSlug(name) == [] <==> name == []
  {
    var r := FallbackSlug(name);
    forall i | 0 <= i < |r| ensures !IsSpace(r[i]) {
      assert r[i] == '-' || !IsSpace(r[i]);
    }
  }

  /** The guard of the `forEach`: both the key and the value are non-empty. */
  predicate Usable(spec: Spec) { spec.key != "" && spec.value != "" }

  /**
   * The one key a plain object literal does not store: assigning to
   * `__proto__` calls the inherited prototype setter, which ignores a
   * string value.
   */
  const ProtoKey := "__proto__"

  /** `specsObject[key] = value` on an object created as `{}`. */
  function Assigned(m: map<string, string>, key: string, value: string): (r: map<string, string>)
    ensures key == ProtoKey ==> r == m
    ensures key != ProtoKey ==> key in r && r[key] == value
    ensures forall k :: k != key ==> (k in r <==> k in m) && (k in r ==> r[k] == m[k])
  {
    if key == ProtoKey then m else m[key := value]
  }

  /** A row that passes the guard and ends up as an own key of the object. */
  predicate Stored(spec: Spec) { Usable(spec) && spec.key != ProtoKey }

  /** The specification object after the `forEach` has visited `specs`. */
  function SpecsMap(specs: seq<Spec>): map<string, string>
  {
    if specs == [] then map[]
    else
      var m := SpecsMap(specs[..|specs| - 1]);
      var last := specs[|specs| - 1];
      if Usable(last) then Assigned(m, last.key, last.value) else m
  }

  /** A key is in the object exactly when some row with that key passes the guard and the key is not `__proto__`. */
  lemma {:induction false} SpecsMapKeys(specs: seq<Spec>, key: string)
    ensures key in SpecsMap(specs) <==> exists i :: 0 <= i < |specs| && Stored(specs[i]) && specs[i].key == key
  {
    if specs != [] {
      var init := specs[..|specs| - 1];
      SpecsMapKeys(init, key);
      if exists i :: 0 <= i < |init| && Stored(init[i]) && init[i].key == key {
        var i :| 0 <= i < |init| && Stored(init[i]) && init[i].key == key;
        assert specs[i] == init[i];
      }
      if exists i :: 0 <= i < |specs| && Stored(specs[i]) && specs[i].key == key {
        var i :| 0 <= i < |specs| && Stored(specs[i]) && specs[i].key == key;
        if i < |init| {
          assert init[i] == specs[i];
        }
      }
    }
  }

  /** The last stored row with a key decides that key's value: later duplicates overwrite earlier ones. */
  lemma {:induction false} SpecsMapLastWins(specs: seq<Spec>, j: nat)
    requires j < |specs| && Stored(specs[j])
    requires forall l :: j < l < |specs| ==> !(Stored(specs[l]) && specs[l].key == specs[j].key)
    ensures specs[j].key in SpecsMap(specs) && SpecsMap(specs)[specs[j].key] == specs[j].value
  {
    if j < |specs| - 1 {
      var init := specs[..|specs| - 1];
      assert init[j] == specs[j];
      forall l | j < l < |init| ensures !(Stored(init[l]) && init[l].key == init[j].key) {
        assert init[l] == specs[l];
      }
      SpecsMapLastWins(init, j);
    }
  }

  /** A row keyed `__proto__` passes the guard but leaves the object empty. */
  lemma ProtoRowDropped()
    ensures Usable(Spec(ProtoKey, "red"))
    ensures SpecsMap([Spec(ProtoKey, "red")]) == map[]
  {
    assert [Spec(ProtoKey, "red")][..0] == [];
  }

  /** The `formData` record: the text fields as typed and the featured checkbox. */
  datatype FormData = FormData(
    name: string,
    slug: string,
    description: string,
    price: string,
    stock: string,
    categoryId: string,
    featured: bool,
    metaTitle: string,
    metaDescription: string,
    keywords: string)

  const EmptyForm := FormData("", "", "", "", "", "", false, "", "", "")

  /** The page's state: the form record, the image URLs and the specification rows. */
  class NewProductPage {
    var form: FormData
    var images: seq<string>
    var specs: seq<Spec>

    /** The initial state: empty fields, no images and one empty specification row. */
    constructor()
      ensures form == EmptyForm && images == [] && specs == [Spec("", "")]
    {
      form := EmptyForm;
      images := [];
      specs := [Spec("", "")];
    }

    /** `handleNameChange(newName)`: store the name and regenerate the slug from it. */
    method HandleNameChange(newName: string)
      modifies this
      ensures form == old(form).(name := newName, slug := AutoSlug(newName))
      ensures IsSlug(form.slug)
      ensures images == old(images) && specs == old(specs)
    {
      AutoSlugIsSlug(newName);
      form := form.(name := newName, slug := AutoSlug(newName));
    }

    /** The slug field's own `onChange`: any text, including the empty one. */
    method SetSlug(text: string)
      modifies this
      ensures form == old(form).(slug := text)
      ensures images == old(images) && specs == old(specs)
    {
      form := form.(slug := text);
    }

    /** `handleAddImage`, with the prompt's answer given (`None` when cancelled). */
    method HandleAddImage(answer: Option<string>)
      modifies this
      ensures answer.Some? && answer.value != "" ==> images == old(images) + [answer.value]
      ensures !(answer.Some? && answer.value != "") ==> images == old(images)
      ensures form == old(form) && specs == old(specs)
    {
      if answer.Some? && answer.value != "" {
        images := images + [answer.value];
      }
    }

    /** `handleRemoveImage(index)`: drop that position, keep the rest in order. */
    method HandleRemoveImage(index: int)
      modifies this
      ensures 0 <= index < |old(images)| ==> images == old(images)[..index] + old(images)[index + 1..]
      ensures !(0 <= index < |old(images)|) ==> images == old(images)
      ensures form == old(form) && specs == old(specs)
    {
      images := RemoveAt(images, index);
    }

    /** `handleSpecChange(index, field, value)`; the row must exist, as the page only edits rendered rows. */
    method HandleSpecChange(index: int, field: SpecField, value: string)
      requires 0 <= index < |specs|
      modifies this
      ensures |specs| == |old(specs)|
      ensures forall i :: 0 <= i < |specs| && i != index ==> specs[i] == old(specs)[i]
      ensures specs[index] == if field == Key then old(specs)[index].(key := value) else old(specs)[index].(value := value)
      ensures form == old(form) && images == old(images)
    {
      var row := specs[index];
      specs := specs[index := if field == Key then row.(key := value) else row.(value := value)];
    }

    /** `handleAddSpec`: append one empty row. */
    method HandleAddSpec()
      modifies this
      ensures specs == old(specs) + [Spec("", "")]
      ensures form == old(form) && images == old(images)
    {
      specs := specs + [Spec("", "")];
    }

    /** `handleRemoveSpec(index)`: drop that position, keep the rest in order. */
    method HandleRemoveSpec(index: int)
      modifies this
      ensures 0 <= index < |old(specs)| ==> specs == old(specs)[..index] + old(specs)[index + 1..]
      ensures !(0 <= index < |old(specs)|) ==> specs == old(specs)
      ensures form == old(form) && images == old(images)
    {
      specs := RemoveAt(specs, index);
    }

    /** The `forEach` of `handleSubmit` that collects the usable specification rows. */
    method CollectSpecs() returns (m: map<string, string>)
      ensures m == SpecsMap(specs)
    {
      m := map[];
      var i := 0;
      while i < |specs|
        invariant 0 <= i <= |specs|
        invariant m == SpecsMap(specs[..i])
      {
        assert specs[..i + 1][..i] == specs[..i];
        if specs[i].key != "" && specs[i].value != "" {
          m := Assigned(m, specs[i].key, specs[i].value);
        }
        i := i + 1;
      }
      assert specs[..i] == specs;
    }

    /**
     * `handleSubmit`: reject when the name, price or stock field is empty;
     * otherwise build the draft with its defaults. The form is left as it is.
     */
    method HandleSubmit() returns (r: SubmitResult)
      ensures r.Rejected? <==> form.name == "" || form.price == "" || form.stock == ""
      ensures r.Submitted? ==>
                && r.draft.name == form.name
                && r.draft.slug == (if form.slug != "" then form.slug else FallbackSlug(form.name))
                && r.draft.images == (if |images| > 0 then images else [Placeholder])
                && r.draft.categoryId == (if form.categoryId != "" then form.categoryId else "uncategorized")
                && r.draft.specifications == SpecsMap(specs)
                && r.draft.priceText == form.price && r.draft.stockText == form.stock
                && r.draft.description == form.description && r.draft.featured == form.featured
                && r.draft.metaTitle == form.metaTitle && r.draft.metaDescription == form.metaDescription
                && r.draft.keywords == form.keywords
    {
      var f := form;
      if f.name == "" || f.price == "" || f.stock == "" {
        return Rejected;
      }
      var specsObject := CollectSpecs();
      r := Submitted(ProductDraft(
        f.name,
        if f.slug != "" then f.slug else FallbackSlug(f.name),
        f.description,
        f.price,
        if |images| > 0 then images else [Placeholder],
        if f.categoryId != "" then f.categoryId else "uncategorized",
        specsObject,
        f.stock,
        f.featured,
        f.metaTitle,
        f.metaDescription,
        f.keywords));
    }
  }

  /** A submitted draft always has a non-empty slug, at least one image and a non-empty category. */
  lemma SubmittedDraftComplete(f: FormData, images: seq<string>)
    requires f.name != ""
    ensures (if f.slug != "" then f.slug else FallbackSlug(f.name)) != ""
    ensures |if |images| > 0 then images else [Placeholder]| > 0
    ensures (if f.categoryId != "" then f.categoryId else "uncategorized") != ""
  {
    FallbackSlugHasNoSpace(f.name);
  }
}
