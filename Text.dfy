/** The name normalisation shared by FoodItem, Meal and Exercise:
    `string.IsNullOrWhiteSpace(value) ? string.Empty : value`. */
module Text {
  import opened Wrappers

  /** .NET `char.IsWhiteSpace`: the Unicode space, line and paragraph
      separators plus the control characters U+0009..U+000D and U+0085. */
  predicate IsWhiteSpace(c: char): (b: bool)
    ensures c == ' ' || c == '\t' || c == '\n' || c == '\r' ==> b
    ensures '!' <= c <= '~' ==> !b
  {
    || '\U{0009}' <= c <= '\U{000D}'
    || c == '\U{0020}' || c == '\U{0085}' || c == '\U{00A0}' || c == '\U{1680}'
    || '\U{2000}' <= c <= '\U{200A}'
    || c == '\U{2028}' || c == '\U{2029}' || c == '\U{202F}' || c == '\U{205F}' || c == '\U{3000}'
  }

  /** .NET `string.IsNullOrWhiteSpace`: null, empty, or whitespace only. */
  predicate IsNullOrWhiteSpace(value: Option<string>): (b: bool)
    ensures value == None || value == Some("") ==> b
    ensures value.Some? && (exists k :: 0 <= k < |value.value| && '!' <= value.value[k] <= '~') ==> !b
  {
    match value
    case None => true
    case Some(s) => forall k :: 0 <= k < |s| ==> IsWhiteSpace(s[k])
  }

  /** The value a `Name` setter stores. */
  function NormalizeName(value: Option<string>): (r: string)
    ensures IsNullOrWhiteSpace(value) ==> r == ""
    ensures !IsNullOrWhiteSpace(value) ==> value.Some? && r == value.value
    ensures r == "" || exists k :: 0 <= k < |r| && !IsWhiteSpace(r[k])
  {
    if IsNullOrWhiteSpace(value) then "" else value.value
  }

  /** Storing a name that was read back from a `Name` property stores it again
      unchanged: normalisation is idempotent. */
  lemma NormalizeNameIdempotent(value: Option<string>)
    ensures NormalizeName(Some(NormalizeName(value))) == NormalizeName(value)
  {
  }
}
