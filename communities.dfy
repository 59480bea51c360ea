/**
 * `truncate` of the community list (frontend/src/pages/Communities.tsx),
 * applied to descriptions that may be missing.
 */
module Communities {
  import opened Types
  import opened JsString

  const Ellipsis: string := "..."

  /** `truncate(text, maxLength)`: a missing or empty text gives `''`, a
      text within the limit is returned whole, and a longer one is cut by
      `slice(0, maxLength)` and followed by `...`. */
  function Truncate(text: Option<string>, maxLength: int): (r: string)
    ensures text.None? || text.value == [] ==> r == []
    ensures text.Some? && |text.value| <= maxLength ==> r == text.value
    ensures text.Some? && text.value != [] && |text.value| > maxLength ==>
      r == text.value[..SliceEnd(|text.value|, maxLength)] + Ellipsis
    ensures maxLength >= 0 && text.Some? && |text.value| > maxLength ==>
      r == text.value[..maxLength] + Ellipsis
  {
    if text.None? || text.value == [] || |text.value| <= maxLength then
      (if text.None? then [] else text.value)
    else text.value[..SliceEnd(|text.value|, maxLength)] + Ellipsis
  }

  function Min(a: int, b: int): int {
    if a <= b then a else b
  }

  /** For a non-negative limit the result is at most three characters
      longer than the limit, exactly that long when the text was cut, and
      always begins with the first `min(length, limit)` characters. */
  lemma TruncateShape(text: string, maxLength: int)
    requires maxLength >= 0
    ensures var r := Truncate(Some(text), maxLength);
      |r| <= maxLength + 3 &&
      (|r| == maxLength + 3 <==> |text| > maxLength) &&
      Min(|text|, maxLength) <= |r| &&
      r[..Min(|text|, maxLength)] == text[..Min(|text|, maxLength)]
  {
  }

  /** Truncating an already truncated text changes nothing. */
  lemma TruncateIdempotent(text: Option<string>, maxLength: int)
    requires maxLength >= 0
    ensures Truncate(Some(Truncate(text, maxLength)), maxLength) == Truncate(text, maxLength)
  {
    var r := Truncate(text, maxLength);
    if text.Some? && |text.value| > maxLength {
      assert r[..maxLength] == text.value[..maxLength];
    }
  }

  /** A negative limit counts from the end as `slice` does, and the result
      is then not stable under a second truncation. */
  lemma NegativeLimitNotIdempotent()
    ensures Truncate(Some("abcdef"), -2) == "abcd..."
    ensures Truncate(Some("abcd..."), -2) == "abcd...."
  {
    assert "abcdef"[..4] == "abcd";
    assert "abcd..."[..5] == "abcd.";
  }
}
