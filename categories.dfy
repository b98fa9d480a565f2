/**
 * The biller-category lookup made on submit: the first loaded category whose
 * slug, trimmed and lower-cased, is "data_bundle".
 */
module Categories {
  import opened Wrappers
  import opened JsStrings

  const DATA_BUNDLE: string := "data_bundle"

  /** A loaded biller category; its `slug` may be missing. */
  datatype Category = Category(slug: Option<string>)

  /** `category.slug?.trim()?.toLowerCase() === 'data_bundle'` */
  predicate IsDataCategory(category: Category) {
    category.slug.Some? && ToLowerCase(Trim(category.slug.value)) == DATA_BUNDLE
  }

  /** `Array.prototype.find`, given as the index of the element it returns: the first element satisfying `p`. */
  function Find<T>(s: seq<T>, p: T -> bool): (r: Option<nat>)
    ensures r.Some? ==> r.value < |s| && p(s[r.value])
    ensures r.Some? ==> forall j :: 0 <= j < r.value ==> !p(s[j])
    ensures r.None? <==> forall j :: 0 <= j < |s| ==> !p(s[j])
  {
    if s == [] then None
    else if p(s[0]) then Some(0)
    else match Find(s[1..], p)
      case None => None
      case Some(i) => Some(i + 1)
  }

  /** The category submit uses: the first whose slug, trimmed and lower-cased, is "data_bundle". */
  function FindDataCategory(categories: seq<Category>): (r: Option<nat>)
    ensures r.Some? ==> r.value < |categories| && IsDataCategory(categories[r.value])
    ensures r.Some? ==> forall j :: 0 <= j < r.value ==> !IsDataCategory(categories[j])
    ensures r.None? <==> forall j :: 0 <= j < |categories| ==> !IsDataCategory(categories[j])
  {
    Find(categories, IsDataCategory)
  }

  /** The slug test ignores white space around the slug. */
  lemma DataCategoryIgnoresPadding(w1: string, slug: string, w2: string)
    requires AllWhiteSpace(w1) && AllWhiteSpace(w2)
    ensures IsDataCategory(Category(Some(w1 + slug + w2))) <==> IsDataCategory(Category(Some(slug)))
  {
    TrimIgnoresPadding(w1, slug, w2);
  }

  /** The slug test ignores the case of ASCII letters. */
  lemma DataCategoryIgnoresCase(slug: string, other: string)
    requires |slug| == |other|
    requires forall i :: 0 <= i < |slug| ==> LowerChar(slug[i]) == LowerChar(other[i])
    ensures IsDataCategory(Category(Some(slug))) <==> IsDataCategory(Category(Some(other)))
  {
    TrimPreservesLowerCase(slug, other);
  }
}
