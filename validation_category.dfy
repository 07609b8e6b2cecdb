/** The category schema (validation/category.ts), checked before a category
    is added or updated. */
module CategoryRules {
  import opened Wrappers
  import opened Schema
  import opened Joi
  import Categories

  datatype CategoryBody = CategoryBody(name: Option<string>, imageUrl: Option<string>)

  /** categorySchema: a name of 3 to 255 characters and an image URI. */
  predicate CategoryAccepted(b: CategoryBody, f: Formats) {
    RequiredText(b.name, 3, 255) && FormatKey(b.imageUrl, true, f.uri)
  }

  function CategoryRequestOf(b: CategoryBody, f: Formats): Categories.CategoryRequest
    requires CategoryAccepted(b, f)
  {
    Categories.CategoryRequest(b.name.value, b.imageUrl.value)
  }

  /** An accepted name fits categories.name, varchar(255), has at least
      three characters, and the image is a URI. */
  lemma AcceptedCategoryFits(b: CategoryBody, f: Formats)
    requires CategoryAccepted(b, f)
    ensures var r := CategoryRequestOf(b, f);
      3 <= |r.name| <= 255 && f.uri(r.imageUrl)
  {
  }

  /** A missing name, a two-character name, and a name of 256 characters
      are refused. */
  lemma CategoryRefusals(b: CategoryBody, f: Formats)
    ensures b.name.None? ==> !CategoryAccepted(b, f)
    ensures b.name.Some? && 0 < |b.name.value| < 3 ==> !CategoryAccepted(b, f)
    ensures b.name.Some? && |b.name.value| > 255 ==> !CategoryAccepted(b, f)
  {
  }
}
