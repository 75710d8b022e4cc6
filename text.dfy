/**
 * Python's `str.strip()` with no argument, which both scripts apply to the
 * text the generator returns: it removes leading and trailing whitespace,
 * where whitespace is what `str.isspace` accepts.
 */
module Text {
  import opened Wrappers

  /** Python's `str.isspace` on one character (ASCII and Unicode whitespace). */
  predicate IsSpace(c: char) {
    var n := c as int;
    || (9 <= n <= 13)
    || (28 <= n <= 32)
    || n == 0x85 || n == 0xA0 || n == 0x1680
    || (0x2000 <= n <= 0x200A)
    || n == 0x2028 || n == 0x2029 || n == 0x202F || n == 0x205F || n == 0x3000
  }

  /** Python truthiness of an optional string (`if not v`): present and not empty. */
  predicate Truthy(v: Option<string>) {
    v.Some? && v.value != ""
  }

  predicate AllSpace(s: string) {
    forall i :: 0 <= i < |s| ==> IsSpace(s[i])
  }

  /** The length of the longest prefix of `s` made of whitespace only. */
  function LeadingSpaces(s: string): (k: nat)
    ensures k <= |s|
    ensures forall i :: 0 <= i < k ==> IsSpace(s[i])
    ensures k < |s| ==> !IsSpace(s[k])
  {
    if |s| > 0 && IsSpace(s[0]) then
      var k' := LeadingSpaces(s[1..]);
      assert forall i :: 1 <= i < k' + 1 ==> s[i] == s[1..][i - 1];
      1 + k'
    else
      0
  }

  /** The length of the longest suffix of `s` made of whitespace only. */
  function TrailingSpaces(s: string): (k: nat)
    ensures k <= |s|
    ensures forall i :: |s| - k <= i < |s| ==> IsSpace(s[i])
    ensures k < |s| ==> !IsSpace(s[|s| - 1 - k])
  {
    if |s| > 0 && IsSpace(s[|s| - 1]) then
      var k' := TrailingSpaces(s[..|s| - 1]);
      1 + k'
    else
      0
  }

  /**
   * `s.strip()`: the slice of `s` that starts after its leading whitespace
   * and has only whitespace after it. The result is empty exactly when `s`
   * is whitespace only, and otherwise begins and ends with a character that
   * is not whitespace.
   */
  function Strip(s: string): (r: string)
    ensures LeadingSpaces(s) + |r| <= |s|
    ensures r == s[LeadingSpaces(s)..LeadingSpaces(s) + |r|]
    ensures forall i :: LeadingSpaces(s) + |r| <= i < |s| ==> IsSpace(s[i])
    ensures r == "" <==> AllSpace(s)
    ensures r != "" ==> !IsSpace(r[0]) && !IsSpace(r[|r| - 1])
  {
    var i := LeadingSpaces(s);
    var rest := s[i..];
    var j := TrailingSpaces(rest);
    var r := rest[..|rest| - j];
    assert forall t :: i <= t < |s| ==> s[t] == rest[t - i];
    r
  }

  /** `LeadingSpaces` is determined by its two defining properties. */
  lemma LeadingSpacesUnique(s: string, k: nat)
    requires k <= |s|
    requires forall i :: 0 <= i < k ==> IsSpace(s[i])
    requires k < |s| ==> !IsSpace(s[k])
    ensures LeadingSpaces(s) == k
  {
  }

  /** `TrailingSpaces` is determined by its two defining properties. */
  lemma TrailingSpacesUnique(s: string, k: nat)
    requires k <= |s|
    requires forall i :: |s| - k <= i < |s| ==> IsSpace(s[i])
    requires k < |s| ==> !IsSpace(s[|s| - 1 - k])
    ensures TrailingSpaces(s) == k
  {
  }

  /** Stripping is idempotent: a stripped text strips to itself. */
  lemma StripIdempotent(s: string)
    ensures Strip(Strip(s)) == Strip(s)
  {
  }

  /**
   * Stripping undoes padding: whitespace added on either side of a text that
   * neither begins nor ends with whitespace is removed, and nothing else is.
   */
  lemma StripPadding(pre: string, core: string, post: string)
    requires AllSpace(pre) && AllSpace(post)
    requires core != "" ==> !IsSpace(core[0]) && !IsSpace(core[|core| - 1])
    ensures Strip(pre + core + post) == core
  {
    var s := pre + core + post;
    if core == "" {
      assert forall i :: 0 <= i < |s| ==> s[i] == (if i < |pre| then pre[i] else post[i - |pre|]);
    } else {
      assert forall i :: 0 <= i < |pre| ==> s[i] == pre[i];
      assert s[|pre|] == core[0];
      LeadingSpacesUnique(s, |pre|);
      var rest := s[|pre|..];
      assert rest == core + post;
      assert forall i :: |rest| - |post| <= i < |rest| ==> rest[i] == post[i - (|rest| - |post|)];
      assert rest[|rest| - 1 - |post|] == core[|core| - 1];
      TrailingSpacesUnique(rest, |post|);
      assert rest[..|rest| - |post|] == core;
    }
  }
}
