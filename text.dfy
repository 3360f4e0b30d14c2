/** The few Python string operations the backend relies on: `str.strip()`,
    `str.split(sep)[0]` and `str.startswith(prefix)`. */
module Text {

  /** Python's `str.isspace()` on one character: the characters that
      `str.strip()` with no argument removes. */
  predicate IsSpace(c: char) {
    || ('\U{9}' <= c <= '\U{D}')
    || ('\U{1C}' <= c <= '\U{20}')
    || c == '\U{85}' || c == '\U{A0}' || c == '\U{1680}'
    || ('\U{2000}' <= c <= '\U{200A}')
    || c == '\U{2028}' || c == '\U{2029}' || c == '\U{202F}'
    || c == '\U{205F}' || c == '\U{3000}'
  }

  /** The number of whitespace characters in `s` from position `from` on,
      up to the first other character. */
  function LeadingSpaces(s: string, from: nat): (n: nat)
    requires from <= |s|
    ensures from + n <= |s|
    ensures forall k :: from <= k < from + n ==> IsSpace(s[k])
    ensures from + n == |s| || !IsSpace(s[from + n])
    decreases |s| - from
  {
    if from == |s| || !IsSpace(s[from]) then 0 else 1 + LeadingSpaces(s, from + 1)
  }

  /** The number of whitespace characters in `s` just before position
      `upto`, back to the previous other character. */
  function TrailingSpaces(s: string, upto: nat): (n: nat)
    requires upto <= |s|
    ensures n <= upto
    ensures forall k :: upto - n <= k < upto ==> IsSpace(s[k])
    ensures n == upto || !IsSpace(s[upto - n - 1])
  {
    if upto == 0 || !IsSpace(s[upto - 1]) then 0 else 1 + TrailingSpaces(s, upto - 1)
  }

  /** Python's `s.strip()`: `s` without its leading and trailing whitespace.
      The result is empty exactly when `s` is all whitespace. */
  function Strip(s: string): (r: string)
    ensures |r| <= |s|
    ensures r == [] <==> forall k :: 0 <= k < |s| ==> IsSpace(s[k])
    ensures r == [] || (!IsSpace(r[0]) && !IsSpace(r[|r| - 1]))
  {
    var i := LeadingSpaces(s, 0);
    if i == |s| then [] else s[i..|s| - TrailingSpaces(s, |s|)]
  }

  /** `Strip` keeps a contiguous run `s[i..j]` of the input, removes only
      whitespace around it, and leaves no whitespace at either end. */
  lemma StripIsTrimmedSlice(s: string) returns (i: nat, j: nat)
    ensures i <= j <= |s| && Strip(s) == s[i..j]
    ensures forall k :: 0 <= k < i ==> IsSpace(s[k])
    ensures forall k :: j <= k < |s| ==> IsSpace(s[k])
    ensures i < j ==> !IsSpace(s[i]) && !IsSpace(s[j - 1])
  {
    i := LeadingSpaces(s, 0);
    if i == |s| {
      j := i;
    } else {
      j := |s| - TrailingSpaces(s, |s|);
    }
  }

  /** A character absent from `s` is absent from `Strip(s)`. */
  lemma StripKeepsAbsent(s: string, c: char)
    requires c !in s
    ensures c !in Strip(s)
  {
    var i, j := StripIsTrimmedSlice(s);
  }

  /** Python's `s.split(sep)[0]`: everything before the first `sep`, or the
      whole string when `sep` does not occur. */
  function FirstField(s: string, sep: char): (r: string)
    ensures |r| <= |s| && r == s[..|r|]
    ensures sep !in r
    ensures |r| < |s| ==> s[|r|] == sep
  {
    if s == [] || s[0] == sep then [] else [s[0]] + FirstField(s[1..], sep)
  }

  /** Python's `s.startswith(prefix)`. */
  predicate StartsWith(s: string, prefix: string) {
    |prefix| <= |s| && s[..|prefix|] == prefix
  }

  /** The first entry of a comma-separated header value, stripped:
      `value.split(',')[0].strip()`. */
  function FirstListEntry(value: string): (r: string)
    ensures ',' !in r
    ensures r == [] || (!IsSpace(r[0]) && !IsSpace(r[|r| - 1]))
  {
    var first := FirstField(value, ',');
    StripKeepsAbsent(first, ',');
    Strip(first)
  }
}
