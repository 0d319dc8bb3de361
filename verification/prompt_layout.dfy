/** Where each part of the analysis prompt lands in the text. */
module PromptLayout {
  import opened Strings
  import opened PromptWording

  /** The prompt opens with the introduction. */
  lemma StartsWithIntroduction(lang: string, special: string, dataJson: string, schema: string)
    ensures OccursAt(PromptText(lang, special, dataJson, schema), Introduction(lang), 0)
  {
    Join4(Introduction(lang), OptionalConsiderations(special), DataSection(dataJson), schema);
  }

  /** With special considerations, the "IMPORTANT" clause follows the introduction. */
  lemma ConsiderationsWhenGiven(lang: string, special: string, dataJson: string, schema: string)
    requires special != ""
    ensures OccursAt(PromptText(lang, special, dataJson, schema), ConsiderationsMarker, |Introduction(lang)|)
  {
    ConsiderationsShape(special);
    OccursInSecond(Introduction(lang), Considerations(special), DataSection(dataJson), schema, ConsiderationsMarker, 0);
  }

  /** Without special considerations, no "IMPORTANT" clause follows the introduction. */
  lemma NoConsiderationsWhenEmpty(lang: string, dataJson: string, schema: string)
    ensures !OccursAt(PromptText(lang, "", dataJson, schema), ConsiderationsMarker, |Introduction(lang)|)
  {
    Join4(Introduction(lang), "", DataSection(dataJson), schema);
    DataSectionShape(dataJson);
    NotOccursAtMismatch(PromptText(lang, "", dataJson, schema), DataSection(dataJson), ConsiderationsMarker,
                        |Introduction(lang)|, 2);
  }

  /** Non-empty special considerations are quoted verbatim inside the clause. */
  lemma ConsiderationsQuotedVerbatim(lang: string, special: string, dataJson: string, schema: string)
    ensures special != "" ==>
              OccursAt(PromptText(lang, special, dataJson, schema), special, |Introduction(lang)| + |ConsiderationsLead|)
  {
    if special != "" {
      ConsiderationsShape(special);
      OccursInSecond(Introduction(lang), Considerations(special), DataSection(dataJson), schema,
                     special, |ConsiderationsLead|);
    }
  }

  /** The serialised data follows the introduction and the optional clause. */
  lemma DataFollowsConsiderations(lang: string, special: string, dataJson: string, schema: string)
    ensures OccursAt(PromptText(lang, special, dataJson, schema),
                     DataSection(dataJson), |Introduction(lang)| + |OptionalConsiderations(special)|)
  {
    Join4(Introduction(lang), OptionalConsiderations(special), DataSection(dataJson), schema);
  }

  /** The prompt ends with the schema. */
  lemma EndsWithSchema(lang: string, special: string, dataJson: string, schema: string)
    ensures EndsWith(PromptText(lang, special, dataJson, schema), schema)
  {
    EndsWithFourth(Introduction(lang), OptionalConsiderations(special), DataSection(dataJson), schema);
  }

  // ---------------------------------------------------------------------
  // The required schema.

  /** Every item of a quoted list appears quoted, in order, at the start of its own line. */
  lemma {:induction false} QuotedLinesQuotesEach(items: seq<string>, k: nat)
    requires k < |items|
    ensures OccursAt(QuotedLines(items), QuotedItem(items[k]), LineStart(items, k))
  {
    if k == 0 {
      if |items| == 1 {
        OccursAtStart(QuotedItem(items[0]), "\n");
      } else {
        OccursAtStart(QuotedItem(items[0]), ",\n" + QuotedLines(items[1..]));
        assert QuotedItem(items[0]) + ",\n" + QuotedLines(items[1..])
            == QuotedItem(items[0]) + (",\n" + QuotedLines(items[1..]));
      }
    } else {
      QuotedLinesQuotesEach(items[1..], k - 1);
      OccursAfter(QuotedItem(items[0]) + ",\n", QuotedLines(items[1..]), QuotedItem(items[k]), LineStart(items[1..], k - 1));
    }
  }

  /** The suggestions array of the schema quotes exactly three placeholder suggestions, one per line, in order. */
  lemma ThreeSuggestionSlots()
    ensures |SuggestionSlots| == 3
    ensures forall k :: 0 <= k < 3 ==>
              OccursAt(SuggestionLines, QuotedItem(SuggestionSlots[k]), LineStart(SuggestionSlots, k))
  {
    QuotedLinesQuotesEach(SuggestionSlots, 0);
    QuotedLinesQuotesEach(SuggestionSlots, 1);
    QuotedLinesQuotesEach(SuggestionSlots, 2);
  }

  /** The schema object opens with the summary member, under the given key. */
  lemma SchemaNamesSummary(summaryKey: string, suggestionsKey: string)
    ensures OccursAt(SchemaObject(summaryKey, suggestionsKey), MemberHead(summaryKey), 2)
  {
    OccursAtStartOfSecond("{\n", MemberHead(summaryKey), SummaryValue, MemberHead(suggestionsKey) + SuggestionsArray,
                          TrendDataTemplate + "}\n");
  }

  /** The summary member is followed by the suggestions member, under the given key, holding the slots. */
  lemma SchemaNamesSuggestions(summaryKey: string, suggestionsKey: string)
    ensures OccursAt(SchemaObject(summaryKey, suggestionsKey), MemberHead(suggestionsKey) + SuggestionsArray,
                     2 + |MemberHead(summaryKey)| + |SummaryValue|)
  {
    Join4("{\n", MemberHead(summaryKey) + SummaryValue, MemberHead(suggestionsKey) + SuggestionsArray,
          TrendDataTemplate + "}\n");
  }

  /** The schema section declares the summary member under the given key. */
  lemma SectionNamesSummary(summaryKey: string, suggestionsKey: string, lang: string)
    ensures Contains(SchemaSection(summaryKey, suggestionsKey, lang), MemberHead(summaryKey))
  {
    SchemaNamesSummary(summaryKey, suggestionsKey);
    ContainedInSecond(SchemaLead, SchemaObject(summaryKey, suggestionsKey), TrendDataGuidance,
                      LanguageInstruction(summaryKey, suggestionsKey, lang), MemberHead(summaryKey), 2);
  }

  /** The schema section declares the suggestions array, with its three slots, under the given key. */
  lemma SectionNamesSuggestions(summaryKey: string, suggestionsKey: string, lang: string)
    ensures Contains(SchemaSection(summaryKey, suggestionsKey, lang), MemberHead(suggestionsKey) + SuggestionsArray)
  {
    SchemaNamesSuggestions(summaryKey, suggestionsKey);
    ContainedInSecond(SchemaLead, SchemaObject(summaryKey, suggestionsKey), TrendDataGuidance,
                      LanguageInstruction(summaryKey, suggestionsKey, lang), MemberHead(suggestionsKey) + SuggestionsArray,
                      2 + |MemberHead(summaryKey)| + |SummaryValue|);
  }
}
