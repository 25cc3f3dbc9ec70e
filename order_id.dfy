/**
 * Order identifiers: the pattern `(\d{3}-\d{7}-\d{7})` and the leftmost
 * match that `re.search` returns. Digits are the ASCII digits '0'..'9'.
 */
module OrderId {
  import opened Text
  import opened Wrappers

  /** Length of an identifier: 3 + 1 + 7 + 1 + 7 characters. */
  const ID_LENGTH: nat := 19

  predicate DigitsIn(s: string, lo: int, hi: int)
    requires 0 <= lo <= hi <= |s|
  {
    forall k :: lo <= k < hi ==> IsDigit(s[k])
  }

  /** The pattern matches `s` at index `i`. */
  predicate MatchesAt(s: string, i: int) {
    0 <= i && i + ID_LENGTH <= |s|
    && DigitsIn(s, i, i + 3) && s[i + 3] == '-'
    && DigitsIn(s, i + 4, i + 11) && s[i + 11] == '-'
    && DigitsIn(s, i + 12, i + 19)
  }

  /** A string that is exactly one identifier. */
  predicate IsOrderId(t: string) {
    |t| == ID_LENGTH && MatchesAt(t, 0)
  }

  /** The first index at or after `k` where the pattern matches. */
  function FirstMatchFrom(s: string, k: nat): (r: Option<nat>)
    ensures r.Some? ==> k <= r.value && MatchesAt(s, r.value)
    ensures r.Some? ==> forall j :: k <= j < r.value ==> !MatchesAt(s, j)
    ensures r.None? ==> forall j :: k <= j ==> !MatchesAt(s, j)
    decreases |s| - k
  {
    if k + ID_LENGTH > |s| then None
    else if MatchesAt(s, k) then Some(k)
    else FirstMatchFrom(s, k + 1)
  }

  /** `ORDER_ID_RE.search(text).group(1)`, or None when nothing matches. */
  function FindOrderId(text: string): (r: Option<string>)
    ensures r.None? <==> forall i :: 0 <= i ==> !MatchesAt(text, i)
    ensures r.Some? ==> IsOrderId(r.value)
    ensures r.Some? ==> exists i :: MatchesAt(text, i) && r.value == text[i..i + ID_LENGTH]
                                    && forall j :: 0 <= j < i ==> !MatchesAt(text, j)
  {
    match FirstMatchFrom(text, 0)
    case None => None
    case Some(i) =>
      var t := text[i..i + ID_LENGTH];
      assert forall k :: 0 <= k < ID_LENGTH ==> t[k] == text[i + k];
      Some(t)
  }

  /** An identifier on its own is found, whole. */
  lemma FindOrderIdOfId(t: string)
    requires IsOrderId(t)
    ensures FindOrderId(t) == Some(t)
  {
    assert t[0..ID_LENGTH] == t;
  }

  /** The pattern has no anchors: a longer digit run still yields a match
      inside it, starting at its leftmost possible position. */
  lemma UnanchoredMatch()
    ensures FindOrderId("Order # 1234-4567890-1234567") == Some("234-4567890-1234567")
  {
    var s := "Order # 1234-4567890-1234567";
    assert MatchesAt(s, 9);
    forall j | 0 <= j < 9 ensures !MatchesAt(s, j) {
      assert s[j + 3] != '-' || !IsDigit(s[j]);
    }
    assert s[9..28] == "234-4567890-1234567";
  }
}
