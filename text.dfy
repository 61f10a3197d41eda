/** Trimming a string at both ends by a character class (Foundation's `trimmingCharacters(in:)`). */
module Text {

  /** The number of leading characters in the class `drop`. */
  function LeadingCount(s: string, drop: char -> bool): (n: nat)
    ensures n <= |s|
    ensures forall k :: 0 <= k < n ==> drop(s[k])
    ensures n < |s| ==> !drop(s[n])
  {
    if s == [] || !drop(s[0]) then 0 else 1 + LeadingCount(s[1..], drop)
  }

  /** The number of trailing characters in the class `drop`. */
  function TrailingCount(s: string, drop: char -> bool): (n: nat)
    ensures n <= |s|
    ensures forall k :: |s| - n <= k < |s| ==> drop(s[k])
    ensures n < |s| ==> !drop(s[|s| - 1 - n])
  {
    if s == [] || !drop(s[|s| - 1]) then 0 else 1 + TrailingCount(s[..|s| - 1], drop)
  }

  /**
   * The slice between the leading and the trailing run of `drop`
   * characters: empty exactly when every character is in the class, and
   * otherwise starting and ending outside it.
   */
  function TrimWhere(s: string, drop: char -> bool): (r: string)
    ensures r == [] <==> forall k :: 0 <= k < |s| ==> drop(s[k])
    ensures r != [] ==> !drop(r[0]) && !drop(r[|r| - 1])
    ensures r != [] ==> r == s[LeadingCount(s, drop)..|s| - TrailingCount(s, drop)]
  {
    var lead := LeadingCount(s, drop);
    if lead == |s| then []
    else
      var trail := TrailingCount(s, drop);
      assert |s| - 1 - trail >= lead;
      s[lead..|s| - trail]
  }

  /** Trimming twice trims nothing more. */
  lemma TrimIdempotent(s: string, drop: char -> bool)
    ensures TrimWhere(TrimWhere(s, drop), drop) == TrimWhere(s, drop)
  {
    var r := TrimWhere(s, drop);
    if r != [] {
      assert LeadingCount(r, drop) == 0;
      assert TrailingCount(r, drop) == 0;
    }
  }
}
