/**
 * The payment-card filter built by `card_last4_regex`: the alternation
 * `<separators>+<glue>L | L` with `L` the escaped last four digits, used only
 * through `search`. Because the bare alternative matches `L` anywhere and every
 * match of the first alternative ends in `L`, a search succeeds exactly when
 * `L` occurs in the text.
 */
module PaymentFilter {
  import opened Text

  /** Characters of the separator class as the pattern string spells it: the
      raw f-string keeps both backslashes of `\\*` and `\\u2022`, so the class
      holds a backslash, '*', 'u', '2', '0' and '-'. */
  predicate SeparatorAsWritten(c: char) {
    c == '\\' || c == '*' || c == 'u' || c == '2' || c == '0' || c == '-'
  }

  /** The separator class the pattern evidently means to spell:
      an asterisk, a bullet (U+2022) or a dash. */
  predicate SeparatorIntended(c: char) {
    c == '*' || c == '\U{2022}' || c == '-'
  }

  /** A non-empty run of as-written separators occupies `text[i..j]`. */
  predicate AsWrittenRun(text: string, i: int, j: int) {
    0 <= i < j <= |text| && forall k :: i <= k < j ==> SeparatorAsWritten(text[k])
  }

  predicate IntendedRun(text: string, i: int, j: int) {
    0 <= i < j <= |text| && forall k :: i <= k < j ==> SeparatorIntended(text[k])
  }

  /** `text[a..b]` holds only the letter 's' (the `s*` after the literal
      backslash of `\\s*`). */
  predicate LetterSRun(text: string, a: int, b: int) {
    0 <= a <= b <= |text| && forall k :: a <= k < b ==> text[k] == 's'
  }

  predicate SpaceRun(text: string, a: int, b: int) {
    0 <= a <= b <= |text| && forall k :: a <= k < b ==> IsSpace(text[k])
  }

  /** The first alternative as written matches at `i`: separators, then a
      literal backslash, then any number of 's', then `last4`. */
  ghost predicate SeparatorBranchAsWrittenAt(text: string, i: int, last4: string) {
    exists j, k :: AsWrittenRun(text, i, j) && j < |text| && text[j] == '\\'
                   && LetterSRun(text, j + 1, k) && OccursAt(text, k, last4)
  }

  /** The first alternative as evidently intended: separators, optional
      whitespace, then `last4`. */
  ghost predicate SeparatorBranchIntendedAt(text: string, i: int, last4: string) {
    exists j, k :: IntendedRun(text, i, j) && SpaceRun(text, j, k) && OccursAt(text, k, last4)
  }

  /** `card_last4_regex(last4).search(text)` succeeds, pattern as written. */
  ghost predicate SearchAsWritten(text: string, last4: string) {
    exists i :: 0 <= i <= |text| && (SeparatorBranchAsWrittenAt(text, i, last4) || OccursAt(text, i, last4))
  }

  /** The same search with the intended separator alternative. */
  ghost predicate SearchIntended(text: string, last4: string) {
    exists i :: 0 <= i <= |text| && (SeparatorBranchIntendedAt(text, i, last4) || OccursAt(text, i, last4))
  }

  /** The filter as the rest of the model applies it: `last4` occurs in the text. */
  predicate FilterAccepts(text: string, last4: string) {
    Contains(text, last4)
  }

  /** Every match of the as-written separator alternative ends in `last4`. */
  lemma AsWrittenBranchContainsLast4(text: string, i: int, last4: string)
    requires SeparatorBranchAsWrittenAt(text, i, last4)
    ensures Contains(text, last4)
  {
    var j, k :| AsWrittenRun(text, i, j) && j < |text| && text[j] == '\\'
                && LetterSRun(text, j + 1, k) && OccursAt(text, k, last4);
    ContainsWitness(text, k, last4);
  }

  /** Every match of the intended separator alternative ends in `last4`. */
  lemma IntendedBranchContainsLast4(text: string, i: int, last4: string)
    requires SeparatorBranchIntendedAt(text, i, last4)
    ensures Contains(text, last4)
  {
    var j, k :| IntendedRun(text, i, j) && SpaceRun(text, j, k) && OccursAt(text, k, last4);
    ContainsWitness(text, k, last4);
  }

  /** The search with the pattern as written accepts exactly the texts that
      contain `last4`: the separator alternative adds no acceptance. */
  lemma FilterIsSearch(text: string, last4: string)
    ensures FilterAccepts(text, last4) <==> SearchAsWritten(text, last4)
  {
    if SearchAsWritten(text, last4) {
      var i :| 0 <= i <= |text| && (SeparatorBranchAsWrittenAt(text, i, last4) || OccursAt(text, i, last4));
      if SeparatorBranchAsWrittenAt(text, i, last4) {
        AsWrittenBranchContainsLast4(text, i, last4);
      } else {
        ContainsWitness(text, i, last4);
      }
    }
    if FilterAccepts(text, last4) {
      var i :| 0 <= i <= |text| - |last4| && OccursAt(text, i, last4);
      assert 0 <= i <= |text|;
    }
  }

  /** The corrected pattern accepts the same texts. */
  lemma FilterIsIntendedSearch(text: string, last4: string)
    ensures FilterAccepts(text, last4) <==> SearchIntended(text, last4)
  {
    if SearchIntended(text, last4) {
      var i :| 0 <= i <= |text| && (SeparatorBranchIntendedAt(text, i, last4) || OccursAt(text, i, last4));
      if SeparatorBranchIntendedAt(text, i, last4) {
        IntendedBranchContainsLast4(text, i, last4);
      } else {
        ContainsWitness(text, i, last4);
      }
    }
    if FilterAccepts(text, last4) {
      var i :| 0 <= i <= |text| - |last4| && OccursAt(text, i, last4);
      assert 0 <= i <= |text|;
    }
  }

  /** Filter "4242" accepts a masked card number ending in 4242 and rejects
      one ending in 4241. */
  lemma FilterExamples()
    ensures FilterAccepts("**** 4242", "4242")
    ensures !FilterAccepts("**** 4241", "4242")
  {
    assert OccursAt("**** 4242", 5, "4242");
    var t := "**** 4241";
    forall i | 0 <= i <= |t| - 4 ensures !OccursAt(t, i, "4242") {
      assert t[i] != '4' || t[i + 3] != '2';
    }
  }

  /** As written, the separator alternative cannot match a masked number,
      because it demands a backslash after the separators; the intended one
      matches it from the first asterisk. */
  lemma SeparatorBranchMisEscaped()
    ensures forall i :: !SeparatorBranchAsWrittenAt("**** 4242", i, "4242")
    ensures SeparatorBranchIntendedAt("**** 4242", 0, "4242")
  {
    var t := "**** 4242";
    forall j | 0 <= j < |t| ensures t[j] != '\\' {
    }
    assert IntendedRun(t, 0, 4) && SpaceRun(t, 4, 5) && OccursAt(t, 5, "4242");
  }
}
