/**
 * The fallback rule of the page's `displayAnalysis`: which summary and
 * which suggestions are shown for a parsed coaching reply.
 */
module AnalysisDisplay {
  import opened Wrappers
  import opened JsValues
  import Prompt

  const NoSummary: string := "No summary available."
  const NoSuggestions: string := "No suggestions available."

  /**
   * `translations[lang].summary` used as a property name. The page applies
   * no fallback: a missing entry is `undefined`, which JavaScript turns into
   * the property name "undefined".
   */
  function ReplyKey(translations: map<string, string>, name: string): (key: string)
    ensures name in translations ==> key == translations[name]
    ensures name !in translations ==> key == "undefined"
  {
    if name in translations then translations[name] else "undefined"
  }

  /** What the page shows: the summary and the list of suggestions. */
  datatype Shown = Shown(summary: JsonValue, suggestions: seq<JsonValue>)

  /**
   * `analysis[summaryKey] || 'No summary available.'` and
   * `Array.isArray(analysis[suggestionsKey]) ? analysis[suggestionsKey] : ['No suggestions available.']`.
   */
  function DisplayAnalysis(analysis: JsonValue, translations: map<string, string>): (shown: Shown)
    ensures Truthy(shown.summary)
    ensures var v := Property(analysis, ReplyKey(translations, "summary"));
            if v.Some? && Truthy(v.value) then shown.summary == v.value else shown.summary == JString(NoSummary)
    ensures var v := Property(analysis, ReplyKey(translations, "suggestions"));
            if v.Some? && v.value.JArray? then shown.suggestions == v.value.items
            else shown.suggestions == [JString(NoSuggestions)]
    ensures shown.suggestions == [] ==> Property(analysis, ReplyKey(translations, "suggestions")) == Some(JArray([]))
  {
    var summary := Property(analysis, ReplyKey(translations, "summary"));
    var suggestions := Property(analysis, ReplyKey(translations, "suggestions"));
    Shown(
      if summary.Some? && Truthy(summary.value) then summary.value else JString(NoSummary),
      if suggestions.Some? && suggestions.value.JArray? then suggestions.value.items else [JString(NoSuggestions)])
  }

  /**
   * The page and the server read the same locale entries but resolve them
   * differently: the server falls back to "summary" when the entry is
   * missing or empty, the page does not. The member the page looks up is
   * the one the prompt asked for exactly when the entry is present and
   * non-empty.
   */
  lemma SummaryKeyAgreesWithServer(translations: map<string, string>)
    ensures ReplyKey(translations, "summary") == Prompt.SummaryKey(translations)
            <==> "summary" in translations && translations["summary"] != ""
  {
  }

  /** The same for the suggestions entry. */
  lemma SuggestionsKeyAgreesWithServer(translations: map<string, string>)
    ensures ReplyKey(translations, "suggestions") == Prompt.SuggestionsKey(translations)
            <==> "suggestions" in translations && translations["suggestions"] != ""
  {
  }

  /** A reply shaped as the prompt's schema asks: both members under the server's keys. */
  function SchemaReply(translations: map<string, string>, summary: JsonValue, suggestions: seq<JsonValue>): JsonValue
  {
    JObject(map[Prompt.SummaryKey(translations) := summary,
                Prompt.SuggestionsKey(translations) := JArray(suggestions)])
  }

  /** With both locale entries present and non-empty, a reply that follows the schema is shown as it is. */
  lemma SchemaReplyShown(translations: map<string, string>, summary: JsonValue, suggestions: seq<JsonValue>)
    requires "summary" in translations && translations["summary"] != ""
    requires "suggestions" in translations && translations["suggestions"] != ""
    requires Prompt.SummaryKey(translations) != Prompt.SuggestionsKey(translations)
    requires Truthy(summary)
    ensures DisplayAnalysis(SchemaReply(translations, summary, suggestions), translations) == Shown(summary, suggestions)
  {
    SummaryKeyAgreesWithServer(translations);
    SuggestionsKeyAgreesWithServer(translations);
  }

  /**
   * With the summary entry missing or empty, the page looks under
   * "undefined" or "" while the reply holds "summary": a reply that follows
   * the schema is shown with the fallback summary.
   */
  lemma SchemaReplyLosesSummary(translations: map<string, string>, summary: JsonValue, suggestions: seq<JsonValue>)
    requires !("summary" in translations && translations["summary"] != "")
    requires ReplyKey(translations, "summary") != Prompt.SuggestionsKey(translations)
    ensures DisplayAnalysis(SchemaReply(translations, summary, suggestions), translations).summary == JString(NoSummary)
  {
    SummaryKeyAgreesWithServer(translations);
  }

  /** Likewise, with the suggestions entry missing or empty, the fallback list is shown. */
  lemma SchemaReplyLosesSuggestions(translations: map<string, string>, summary: JsonValue, suggestions: seq<JsonValue>)
    requires !("suggestions" in translations && translations["suggestions"] != "")
    requires ReplyKey(translations, "suggestions") != Prompt.SummaryKey(translations)
    ensures DisplayAnalysis(SchemaReply(translations, summary, suggestions), translations).suggestions
            == [JString(NoSuggestions)]
  {
    SuggestionsKeyAgreesWithServer(translations);
  }
}
