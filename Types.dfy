/** The application's records and the fixed category registry
    (src/types/index.ts). */
module Types {

  /** An optional value: `T | null` and optional (`?`) properties. */
  datatype Option<T> = None | Some(value: T)

  /** The signed-in identity as the auth context exposes it. */
  datatype User = User(uid: string, email: Option<string>, displayName: Option<string>)

  /** A user's profile document. */
  datatype UserProfile = UserProfile(
    displayName: string,
    monthlyBudget: Option<int>,
    email: string,
    updatedAt: string)

  /** One expense record. `amount` is in cents, so sums are exact.
      `category` is a free string: nothing ties it to the registry. */
  datatype Expense = Expense(
    id: string,
    title: string,
    amount: int,
    category: string,
    date: string,
    notes: Option<string>,
    userId: string,
    createdAt: string,
    updatedAt: string)

  /** A registry entry: identifier, display name and chart colour. */
  datatype Category = Category(id: string, name: string, color: string)

  /** The built-in registry, in declaration order. */
  const DefaultCategories: seq<Category> := [
    Category("food", "Food", "#EF4444"),
    Category("transportation", "Transportation", "#F59E0B"),
    Category("rent", "Rent", "#3B82F6"),
    Category("entertainment", "Entertainment", "#10B981"),
    Category("utilities", "Utilities", "#6366F1"),
    Category("other", "Other", "#8B5CF6")
  ]

  /** ASCII lower-casing of one character. */
  function LowerChar(c: char): char
  {
    if 'A' <= c <= 'Z' then (c as int + 32) as char else c
  }

  /** ASCII lower-casing of a string, character by character. */
  function Lower(s: string): string
  {
    seq(|s|, i requires 0 <= i < |s| => LowerChar(s[i]))
  }

  /** The registry holds six categories. */
  lemma DefaultCategoriesCount()
    ensures |DefaultCategories| == 6
  {
  }

  /** No two registry entries share an identifier. */
  lemma DefaultCategoryIdsDistinct()
    ensures forall i, j :: 0 <= i < j < |DefaultCategories| ==>
      DefaultCategories[i].id != DefaultCategories[j].id
  {
  }

  /** No two registry entries share a display name, so a lookup by name
      finds at most one entry. */
  lemma DefaultCategoryNamesDistinct()
    ensures forall i, j :: 0 <= i < j < |DefaultCategories| ==>
      DefaultCategories[i].name != DefaultCategories[j].name
  {
  }

  /** Every identifier is the lower-cased display name. */
  lemma DefaultCategoryIdIsLowerName()
    ensures forall i :: 0 <= i < |DefaultCategories| ==>
      DefaultCategories[i].id == Lower(DefaultCategories[i].name)
  {
  }

  /** Identifiers and names never coincide (each name starts with an
      upper-case letter, each identifier with a lower-case one). */
  lemma DefaultCategoryIdsAreNotNames()
    ensures forall i, j :: 0 <= i < |DefaultCategories| && 0 <= j < |DefaultCategories| ==>
      DefaultCategories[i].id != DefaultCategories[j].name
  {
  }
}
