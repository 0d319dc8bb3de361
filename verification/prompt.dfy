/**
 * `generateAnalysisPrompt`: the activity normaliser, the resolution of the
 * localised JSON field names, and the instruction text sent to the model.
 *
 * The locale table is a parameter (loading it from disk is not part of this
 * model), and so is `JSON.stringify(summaries, null, 2)`, which the prompt
 * embeds verbatim.
 */
module Prompt {
  import opened Wrappers
  import opened JsValues
  import opened Strings
  import opened Activities
  import opened PromptWording
  import opened PromptLayout

  /**
   * The compact record sent to the model: distance in kilometres, moving
   * time in minutes, average speed in km/h, and the calendar date.
   */
  datatype ActivitySummary = ActivitySummary(
    name: string,
    distance: real,
    movingTime: real,
    averageSpeed: real,
    startDate: string
  )

  /** The summary of one activity; the date is the part of the local start time before the first 'T'. */
  function Summarize(a: RawActivity): (summary: ActivitySummary)
    ensures summary.name == a.name
    ensures summary.distance * 1000.0 == a.distance
    ensures summary.movingTime * 60.0 == a.movingTime as real
    ensures summary.averageSpeed == a.averageSpeed * 3.6
    ensures summary.startDate <= a.startDateLocal && 'T' !in summary.startDate
    ensures |summary.startDate| < |a.startDateLocal| ==> a.startDateLocal[|summary.startDate|] == 'T'
  {
    ActivitySummary(a.name, a.distance / 1000.0, (a.movingTime as real) / 60.0, a.averageSpeed * 3.6,
                    BeforeFirst(a.startDateLocal, 'T'))
  }

  /** `activities.map(...)`: one summary per activity, in the same order. */
  function Normalize(activities: seq<RawActivity>): (summaries: seq<ActivitySummary>)
    ensures |summaries| == |activities|
    ensures forall i :: 0 <= i < |activities| ==> summaries[i] == Summarize(activities[i])
  {
    if activities == [] then [] else [Summarize(activities[0])] + Normalize(activities[1..])
  }

  /** `translations.summary || "summary"`: the JSON field name of the summary. */
  function SummaryKey(translations: map<string, string>): (key: string)
    ensures key != ""
    ensures "summary" in translations && translations["summary"] != "" ==> key == translations["summary"]
    ensures !("summary" in translations && translations["summary"] != "") ==> key == "summary"
  {
    EntryOr(translations, "summary", "summary")
  }

  /** `translations.suggestions || "suggestions"`: the JSON field name of the suggestions. */
  function SuggestionsKey(translations: map<string, string>): (key: string)
    ensures key != ""
    ensures "suggestions" in translations && translations["suggestions"] != "" ==> key == translations["suggestions"]
    ensures !("suggestions" in translations && translations["suggestions"] != "") ==> key == "suggestions"
  {
    EntryOr(translations, "suggestions", "suggestions")
  }

  /**
   * `generateAnalysisPrompt(activities, lang, special_considerations)`: the
   * prompt text over the serialised summaries of the activities, with the
   * schema spelled with the field names resolved from the locale table.
   */
  function GenerateAnalysisPrompt(activities: seq<RawActivity>, lang: string, special: string,
                                  translations: map<string, string>,
                                  stringify: seq<ActivitySummary> -> string): (prompt: string)
    ensures OccursAt(prompt, Introduction(lang), 0)
    ensures EndsWith(prompt, SchemaSection(SummaryKey(translations), SuggestionsKey(translations), lang))
  {
    var dataJson := stringify(Normalize(activities));
    var schema := SchemaSection(SummaryKey(translations), SuggestionsKey(translations), lang);
    StartsWithIntroduction(lang, special, dataJson, schema);
    EndsWithSchema(lang, special, dataJson, schema);
    PromptText(lang, special, dataJson, schema)
  }

  /** The "IMPORTANT" clause follows the introduction exactly when the user gave special considerations. */
  lemma PromptMentionsConsiderationsIffGiven(activities: seq<RawActivity>, lang: string, special: string,
                                             translations: map<string, string>,
                                             stringify: seq<ActivitySummary> -> string)
    ensures special != "" <==> OccursAt(GenerateAnalysisPrompt(activities, lang, special, translations, stringify),
                                        ConsiderationsMarker, |Introduction(lang)|)
  {
    var dataJson := stringify(Normalize(activities));
    var schema := SchemaSection(SummaryKey(translations), SuggestionsKey(translations), lang);
    if special != "" {
      ConsiderationsWhenGiven(lang, special, dataJson, schema);
    } else {
      NoConsiderationsWhenEmpty(lang, dataJson, schema);
    }
  }

  /** Non-empty special considerations reach the model verbatim, right after the clause's lead. */
  lemma PromptQuotesConsiderations(activities: seq<RawActivity>, lang: string, special: string,
                                   translations: map<string, string>,
                                   stringify: seq<ActivitySummary> -> string)
    requires special != ""
    ensures OccursAt(GenerateAnalysisPrompt(activities, lang, special, translations, stringify),
                     special, |Introduction(lang)| + |ConsiderationsLead|)
  {
    ConsiderationsQuotedVerbatim(lang, special, stringify(Normalize(activities)),
                                 SchemaSection(SummaryKey(translations), SuggestionsKey(translations), lang));
  }

  /** The summaries of all the activities, serialised, follow the introduction and the optional clause. */
  lemma PromptEmbedsSummaries(activities: seq<RawActivity>, lang: string, special: string,
                              translations: map<string, string>,
                              stringify: seq<ActivitySummary> -> string)
    ensures OccursAt(GenerateAnalysisPrompt(activities, lang, special, translations, stringify),
                     DataSection(stringify(Normalize(activities))),
                     |Introduction(lang)| + |OptionalConsiderations(special)|)
  {
    DataFollowsConsiderations(lang, special, stringify(Normalize(activities)),
                              SchemaSection(SummaryKey(translations), SuggestionsKey(translations), lang));
  }

  /**
   * The schema the prompt ends with declares the summary and the
   * suggestions members under the field names resolved from the locale table.
   */
  lemma PromptSchemaUsesResolvedKeys(activities: seq<RawActivity>, lang: string, special: string,
                                     translations: map<string, string>,
                                     stringify: seq<ActivitySummary> -> string)
    ensures Contains(GenerateAnalysisPrompt(activities, lang, special, translations, stringify),
                     MemberHead(SummaryKey(translations)))
    ensures Contains(GenerateAnalysisPrompt(activities, lang, special, translations, stringify),
                     MemberHead(SuggestionsKey(translations)) + SuggestionsArray)
  {
    var prompt := GenerateAnalysisPrompt(activities, lang, special, translations, stringify);
    var sk, gk := SummaryKey(translations), SuggestionsKey(translations);
    SectionNamesSummary(sk, gk, lang);
    SectionNamesSuggestions(sk, gk, lang);
    EndContains(prompt, SchemaSection(sk, gk, lang), MemberHead(sk));
    EndContains(prompt, SchemaSection(sk, gk, lang), MemberHead(gk) + SuggestionsArray);
  }
}
