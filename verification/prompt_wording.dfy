/**
 * The fixed wording of the analysis prompt, piece by piece, with holes for
 * the user's language, special considerations, serialised data and the
 * localised JSON field names.
 */
module PromptWording {
  import opened Strings

  /** The persona, up to the user's language. */
  const IntroductionLead: string :=
    "\nYou are an expert running coach named \"iform AI\". Your "
      + "task is to analyze a runner's last 6 months of Strava "
      + "data.\nThe user's preferred language is "

  /** The end of the language instruction. */
  const IntroductionTail: string := ". Please provide your entire response in this language."

  /** The persona and the language instruction. */
  function Introduction(lang: string): string {
    IntroductionLead + lang + IntroductionTail
  }

  /** How the special-considerations clause begins. */
  const ConsiderationsMarker: string := "\n\nIMPORTANT: "

  /** The clause text up to the user's own words. */
  const ConsiderationsLead: string :=
    ConsiderationsMarker + "The user has provided the following special considerations "
      + "that you MUST take into account when creating suggestions: "
      + "\""

  /** The clause text after the user's own words. */
  const ConsiderationsTail: string := "\". Your suggestions should be safe and appropriate given "
    + "these considerations."

  /** The special-considerations clause, quoting the user's text verbatim. */
  function Considerations(special: string): string {
    ConsiderationsLead + special + ConsiderationsTail
  }

  /** The clause when the user gave special considerations, nothing otherwise. */
  function OptionalConsiderations(special: string): string {
    if special != "" then Considerations(special) else ""
  }

  /** How the data section begins. */
  const DataLead: string := "\n\nHere is the data:\n"

  /** The serialised summaries, framed by blank lines. */
  function DataSection(dataJson: string): string {
    DataLead + dataJson + "\n\n"
  }

  /** The three placeholder suggestions of the required schema. */
  const SuggestionSlots: seq<string> := [
    "A first concrete, actionable suggestion for improvement. "
      + "Include specific details like duration (minutes), distance "
      + "(km), and repetitions. For example: 'Try incorporating "
      + "interval training: 4 repetitions of 800m at a faster pace, "
      + "with 2 minutes of rest in between.'",
    "A second concrete, actionable suggestion for improvement. " + "Be specific with numbers.",
    "A third concrete, actionable suggestion for improvement. Be " + "specific with numbers."
  ]

  /** One item of a JSON array of strings, quoted and indented. */
  function QuotedItem(item: string): string {
    "    \"" + item + "\""
  }

  /** A JSON array body: each item quoted on its own line, comma-separated. */
  function QuotedLines(items: seq<string>): string {
    if items == [] then ""
    else if |items| == 1 then QuotedItem(items[0]) + "\n"
    else QuotedItem(items[0]) + ",\n" + QuotedLines(items[1..])
  }

  /** Where the line of item `k` begins in `QuotedLines(items)`. */
  function LineStart(items: seq<string>, k: nat): nat
    requires k <= |items|
  {
    if k == 0 then 0 else |QuotedItem(items[0])| + 2 + LineStart(items[1..], k - 1)
  }

  /** The body of the suggestions array in the schema. */
  const SuggestionLines: string := QuotedLines(SuggestionSlots)

  /** The placeholder value of the summary member. */
  const SummaryValue: string :=
    "\"A brief, encouraging summary of the training period " + "(2-3 sentences).\",\n"

  /** The value of the suggestions member: an array of the placeholder suggestions. */
  const SuggestionsArray: string := "[\n" + SuggestionLines + "  ],\n"

  /** The start of a member of the schema object: its quoted name, indented. */
  function MemberHead(key: string): string {
    "  \"" + key + "\": "
  }

  /** The `trendData` member of the schema, with its placeholder labels and datasets. */
  const TrendDataTemplate: string :=
    "  \"trendData\": {\n"
    + "    \"labels\": [\"Month 1\", \"Month 2\", \"Month 3\", "
    + "\"Month 4\", \"Month 5\", \"Month 6\"],\n"
    + "    \"datasets\": [\n"
    + "      {\n"
    + "        \"label\": \"Average Pace (min/km)\",\n"
    + "        \"data\": [5.5, 5.4, 5.6, 5.3, 5.2, 5.1]\n"
    + "      },\n"
    + "      {\n"
    + "        \"label\": \"Total Distance (km)\",\n"
    + "        \"data\": [50, 60, 55, 70, 75, 80]\n"
    + "      }\n"
    + "    ]\n"
    + "  }\n"

  /** The required output object, with the resolved field names. */
  function SchemaObject(summaryKey: string, suggestionsKey: string): string {
    "{\n" + (MemberHead(summaryKey) + SummaryValue) + (MemberHead(suggestionsKey) + SuggestionsArray)
    + (TrendDataTemplate + "}\n")
  }

  /** The sentence that introduces the required output object. */
  const SchemaLead: string :=
    "Your response MUST be a valid JSON object, enclosed in "
      + "json. The JSON object must have the following structure:\n"

  /** The fixed guidance about the `trendData` member. */
  const TrendDataGuidance: string :=
    "\nImportant instructions for the JSON content:\n"
    + "- For \"trendData.labels\", create 6 labels representing "
    + "the last 6 months (e.g., [\"Jan\", \"Feb\", \"Mar\", "
    + "\"Apr\", \"May\", \"Jun\"]).\n"
    + "- For \"trendData.datasets\", provide placeholder data. The "
    + "actual calculations will be done on the client-side.\n"

  /** The closing instruction: both localised members must be written in the user's language. */
  function LanguageInstruction(summaryKey: string, suggestionsKey: string, lang: string): string {
    "- Ensure all text in \"" + summaryKey + "\" and \"" + suggestionsKey + "\" is in " + lang + ".\n"
  }

  /** The schema declaration and the closing instructions. */
  function SchemaSection(summaryKey: string, suggestionsKey: string, lang: string): string {
    SchemaLead + SchemaObject(summaryKey, suggestionsKey) + TrendDataGuidance
    + LanguageInstruction(summaryKey, suggestionsKey, lang)
  }

  /** The clause opens with the marker and quotes the user's text right after its lead. */
  lemma ConsiderationsShape(special: string)
    ensures OccursAt(Considerations(special), ConsiderationsMarker, 0)
    ensures OccursAt(Considerations(special), special, |ConsiderationsLead|)
  {
    Join3(ConsiderationsLead, special, ConsiderationsTail);
    OccursAtPrefix(Considerations(special), ConsiderationsLead, ConsiderationsMarker, 0);
  }

  /** The data section opens differently from the clause: its third character is not the marker's. */
  lemma DataSectionShape(dataJson: string)
    ensures |DataSection(dataJson)| > 2 && |ConsiderationsMarker| > 2
    ensures DataSection(dataJson)[2] != ConsiderationsMarker[2]
  {
  }

  /**
   * The prompt text: introduction, the clause only for non-empty
   * considerations, the serialised summaries, then the schema.
   */
  function PromptText(lang: string, special: string, dataJson: string, schema: string): string {
    Introduction(lang) + OptionalConsiderations(special) + DataSection(dataJson) + schema
  }
}
