/**
 * The stock administration page: the table filtered by the selected tab, and
 * the add/edit form with its image gallery, its list of label/value specs
 * and the record it submits.
 *
 * Form values are JSON values (`Json.Json`), since the form is filled from a
 * stock row the API returned and is sent back as JSON.
 */
module Admin {
  import opened Wrappers
  import opened ListOps
  import opened JsText
  import opened Json

  // ---------------------------------------------------------------- table

  predicate HasType(item: Object, selectedType: string)
  {
    Get(item, "type") == Some(JStr(selectedType))
  }

  function HasTypeOf(selectedType: string): Object -> bool
  {
    item => HasType(item, selectedType)
  }

  /** `items.filter(item => item.type === selectedType)`. */
  function FilteredItems(items: seq<Object>, selectedType: string): seq<Object>
  {
    Filter(items, HasTypeOf(selectedType))
  }

  /** The table shows, in their order, exactly the rows of the selected type. */
  lemma FilteredItemsSpec(items: seq<Object>, selectedType: string)
    ensures Subsequence(FilteredItems(items, selectedType), items)
    ensures forall item :: item in FilteredItems(items, selectedType) <==>
      item in items && Get(item, "type") == Some(JStr(selectedType))
  {
    FilterIsSubsequence(items, HasTypeOf(selectedType));
  }

  // ---------------------------------------------------------------- initial state

  /** The form's defaults; `os: undefined` is an absent key. */
  function Defaults(initialData: Option<Object>, initialType: string): Object
  {
    var declared := if initialData.Some? then Get(initialData.value, "type") else None;
    map[
      "name" := JStr(""), "brand" := JStr(""), "price" := JNum(0.0), "stockCount" := JNum(0.0),
      "type" := OrElse(declared, JStr(initialType)),
      "image" := JStr(""), "rating" := JNum(0.0), "reviews" := JNum(0.0), "inStock" := JBool(true)]
  }

  /** `{ ...defaults, ...(initialData || {}) }`: the initial data wins over every default. */
  function InitialFormData(initialData: Option<Object>, initialType: string): (r: Object)
    ensures initialData.Some? ==> forall k :: k in initialData.value ==> k in r && r[k] == initialData.value[k]
    ensures forall k :: (k in Defaults(initialData, initialType) &&
      (initialData.None? || k !in initialData.value)) ==> k in r && r[k] == Defaults(initialData, initialType)[k]
    ensures r.Keys == Defaults(initialData, initialType).Keys + (if initialData.Some? then initialData.value.Keys else {})
  {
    Defaults(initialData, initialType) + initialData.GetOr(map[])
  }

  /** `initialData && Array.isArray(initialData.images)`. */
  predicate ImagesArray(initialData: Option<Object>)
  {
    initialData.Some? && Get(initialData.value, "images").Some? && Get(initialData.value, "images").value.JArr?
  }

  /**
   * The gallery's first state: the initial data's `images` when that is an
   * array (an empty one included), else its `image` when truthy, else one
   * empty entry.
   */
  function InitialImages(initialData: Option<Object>): (r: seq<Json>)
    ensures ImagesArray(initialData) ==> r == Get(initialData.value, "images").value.elems
    ensures !ImagesArray(initialData) ==>
        r == (if initialData.Some? && Truthy(Get(initialData.value, "image"))
              then [initialData.value["image"]] else [JStr("")])
    ensures r == [] ==> initialData.Some? && Get(initialData.value, "images") == Some(JArr([]))
  {
    match initialData
    case Some(data) =>
      if Get(data, "images").Some? && Get(data, "images").value.JArr? then Get(data, "images").value.elems
      else if Truthy(Get(data, "image")) then [data["image"]]
      else [JStr("")]
    case None => [JStr("")]
  }

  /**
   * The parsed specs are kept only when they form a non-empty array whose
   * first element has `typeof === 'object'` (`null` included).
   */
  predicate UsableSpecs(parsed: Option<Json>)
  {
    parsed.Some? && parsed.value.JArr? && |parsed.value.elems| > 0 && IsObjectType(parsed.value.elems[0])
  }

  /**
   * The specs' first state: `JSON.parse(initialData?.features || '[]')`,
   * kept when usable, else `[]`; a parse error (`None`) also gives `[]`.
   * `parse` is the JSON parser.
   */
  function InitialSpecs(initialData: Option<Object>, parse: string -> Option<Json>): (r: seq<Json>)
    ensures r != [] ==> IsObjectType(r[0])
    ensures r != [] ==> exists s :: parse(s) == Some(JArr(r))
  {
    var features := if initialData.Some? then Get(initialData.value, "features") else None;
    var parsed := match OrElse(features, JStr("[]"))
      case JStr(s) => parse(s)
      case _ => None;
    if UsableSpecs(parsed) then parsed.value.elems else []
  }

  /** A features text that parses to a usable array becomes the specs; anything else gives none. */
  lemma InitialSpecsSpec(data: Object, text: string, parse: string -> Option<Json>)
    requires Get(data, "features") == Some(JStr(text)) && text != ""
    ensures UsableSpecs(parse(text)) ==> InitialSpecs(Some(data), parse) == parse(text).value.elems
    ensures !UsableSpecs(parse(text)) ==> InitialSpecs(Some(data), parse) == []
  {
  }

  /**
   * Without initial data, or with a falsy `features`, the parser is handed
   * `'[]'`, so a new item starts with no specs.
   */
  lemma NoFeaturesGiveNoSpecs(initialData: Option<Object>, parse: string -> Option<Json>)
    requires parse("[]") == Some(JArr([]))
    requires initialData.None? || !Truthy(Get(initialData.value, "features"))
    ensures InitialSpecs(initialData, parse) == []
  {
  }

  // ---------------------------------------------------------------- specs

  function SpecEntry(specLabel: string, specValue: string): Json
  {
    JObj(map["label" := JStr(specLabel), "value" := JStr(specValue)])
  }

  /** The spec list and the two text inputs. */
  datatype SpecEditor = SpecEditor(specs: seq<Json>, specLabel: string, specValue: string)

  /** Empty or made only of white space: what `trim()` turns into `""`. */
  predicate Blank(s: string)
  {
    forall k :: 0 <= k < |s| ==> IsWhiteSpace(s[k])
  }

  /**
   * `addSpec`: when both inputs hold something besides white space, the pair
   * is appended with its surrounding white space cut off and both inputs are
   * emptied; otherwise nothing changes.
   */
  function AddSpec(e: SpecEditor): (r: SpecEditor)
    ensures !Blank(e.specLabel) && !Blank(e.specValue) ==>
      && |r.specs| == |e.specs| + 1
      && r.specs[..|e.specs|] == e.specs
      && r.specs[|e.specs|] == SpecEntry(Trim(e.specLabel), Trim(e.specValue))
      && Trim(e.specLabel) != "" && !IsWhiteSpace(Trim(e.specLabel)[0])
      && Trim(e.specValue) != "" && !IsWhiteSpace(Trim(e.specValue)[0])
      && r.specLabel == "" && r.specValue == ""
    ensures Blank(e.specLabel) || Blank(e.specValue) ==> r == e
  {
    var specLabel, specValue := Trim(e.specLabel), Trim(e.specValue);
    if specLabel != "" && specValue != "" then
      SpecEditor(e.specs + [SpecEntry(specLabel, specValue)], "", "")
    else e
  }

  /** `removeSpec(index)`. */
  function RemoveSpec(e: SpecEditor, index: int): (r: SpecEditor)
    ensures 0 <= index < |e.specs| ==> r.specs == e.specs[..index] + e.specs[index + 1..]
    ensures !(0 <= index < |e.specs|) ==> r.specs == e.specs
    ensures r.specLabel == e.specLabel && r.specValue == e.specValue
  {
    e.(specs := WithoutIndex(e.specs, index))
  }

  /** Removing the spec just added gives back the list from before. */
  lemma RemoveAddedSpec(e: SpecEditor)
    requires !Blank(e.specLabel) && !Blank(e.specValue)
    ensures RemoveSpec(AddSpec(e), |e.specs|).specs == e.specs
  {
    var added := AddSpec(e).specs;
    assert added[..|e.specs|] == e.specs;
  }

  // ---------------------------------------------------------------- image gallery

  /** "Add Image": one more, empty, entry at the end. */
  function AddImage(images: seq<Json>): (r: seq<Json>)
    ensures |r| == |images| + 1 && r[..|images|] == images && r[|images|] == JStr("")
  {
    images + [JStr("")]
  }

  /** The remove button of an entry is disabled while the gallery has one entry. */
  predicate CanRemoveImage(images: seq<Json>)
  {
    |images| != 1
  }

  /** The remove button of entry `idx`. */
  function RemoveImage(images: seq<Json>, idx: int): (r: seq<Json>)
    requires CanRemoveImage(images)
    ensures 0 <= idx < |images| ==> r == images[..idx] + images[idx + 1..]
    ensures !(0 <= idx < |images|) ==> r == images
  {
    WithoutIndex(images, idx)
  }

  /** Editing entry `idx`: copy the gallery, overwrite that one entry. */
  method EditImage(images: seq<Json>, idx: int, value: string) returns (r: seq<Json>)
    requires 0 <= idx < |images|
    ensures |r| == |images|
    ensures r[idx] == JStr(value)
    ensures forall k :: 0 <= k < |r| && k != idx ==> r[k] == images[k]
  {
    var newImages := new Json[|images|](k requires 0 <= k < |images| => images[k]);
    newImages[idx] := JStr(value);
    r := newImages[..];
  }

  /**
   * The gallery never becomes empty through its buttons: adding grows it and
   * removing needs at least two entries.
   */
  lemma GalleryNeverEmptied(images: seq<Json>, idx: int)
    requires images != [] && CanRemoveImage(images)
    ensures AddImage(images) != []
    ensures RemoveImage(images, idx) != []
  {
  }

  /** One entry, "Add Image", then remove the second: one entry again, remove disabled. */
  lemma AddThenRemoveImage()
    ensures var one := InitialImages(None);
      && |one| == 1 && !CanRemoveImage(one)
      && |AddImage(one)| == 2 && CanRemoveImage(AddImage(one))
      && RemoveImage(AddImage(one), 1) == one
  {
  }

  // ---------------------------------------------------------------- submit

  /** The first image, or `undefined` for an empty gallery. */
  function First(images: seq<Json>): Option<Json>
  {
    if images == [] then None else Some(images[0])
  }

  /** The fields `handleSubmit` sets on top of the form data. */
  const SubmitKeys: set<string> := {"features", "images", "image", "rating", "reviews", "inStock", "stockCount"}

  /**
   * `handleSubmit`'s record: the form data with the serialised specs, the
   * gallery, its first entry as `image` and the defaulted numeric and stock
   * fields. `stringify` is `JSON.stringify`.
   */
  function SubmitData(formData: Object, images: seq<Json>, specs: seq<Json>, stringify: Json -> string): (r: Object)
    ensures r.Keys == formData.Keys + SubmitKeys
    ensures forall k :: k in formData && k !in SubmitKeys ==> r[k] == formData[k]
    ensures r["features"] == JStr(stringify(JArr(specs)))
    ensures r["images"] == JArr(images)
    ensures Truthy(First(images)) ==> r["image"] == images[0]
    ensures !Truthy(First(images)) ==> r["image"] == JStr("")
    ensures Truthy(Get(formData, "rating")) ==> r["rating"] == formData["rating"]
    ensures !Truthy(Get(formData, "rating")) ==> r["rating"] == JNum(0.0)
    ensures Truthy(Get(formData, "reviews")) ==> r["reviews"] == formData["reviews"]
    ensures !Truthy(Get(formData, "reviews")) ==> r["reviews"] == JNum(0.0)
    ensures Nullish(Get(formData, "inStock")) ==> r["inStock"] == JBool(true)
    ensures !Nullish(Get(formData, "inStock")) ==> r["inStock"] == formData["inStock"]
    ensures Nullish(Get(formData, "stockCount")) ==> r["stockCount"] == JNum(0.0)
    ensures !Nullish(Get(formData, "stockCount")) ==> r["stockCount"] == formData["stockCount"]
  {
    formData
      ["features" := JStr(stringify(JArr(specs)))]
      ["images" := JArr(images)]
      ["image" := OrElse(First(images), JStr(""))]
      ["rating" := OrElse(Get(formData, "rating"), JNum(0.0))]
      ["reviews" := OrElse(Get(formData, "reviews"), JNum(0.0))]
      ["inStock" := Coalesce(Get(formData, "inStock"), JBool(true))]
      ["stockCount" := Coalesce(Get(formData, "stockCount"), JNum(0.0))]
  }

  /** A form filled only with the defaults submits a record in stock, rated 0, with no stock count. */
  lemma SubmitDefaults(initialType: string, stringify: Json -> string)
    ensures var r := SubmitData(InitialFormData(None, initialType), InitialImages(None), [], stringify);
      && r["image"] == JStr("") && r["rating"] == JNum(0.0) && r["reviews"] == JNum(0.0)
      && r["inStock"] == JBool(true) && r["stockCount"] == JNum(0.0) && r["type"] == JStr(initialType)
  {
  }
}
