# CV Analyzer Pro: a verified model of the analysis core

CV Analyzer Pro is a single-page Streamlit app for recruiters. It reads a CV from an
uploaded PDF and takes a pasted job description. It then asks a language model three
things: a fit score, a structured candidate snapshot (JSON) and an interview kit. It
keeps the three answers in the browser session and offers the snapshot as a CSV
download.

This project models the part of `app.py` that computes, stated in Dafny terms:

- `text.dfy`, module `Text`: Python's `str.strip()` (the full `str.isspace` set),
  `startswith`/`endswith` and `sep.join(items)`.
- `extraction.dfy`, module `Extraction`: `extract_text_from_pdf`. The page loop is an
  imperative method proved against a specification function. The PDF library is
  replaced by what it yields per page.
- `prompts.dfy`, module `Prompts`: the three prompt builders. The templates appear
  character for character, with the job description and CV substituted verbatim.
  `Request` names a prompt kind with its inputs, and `PromptText` gives its text.
- `normalizer.dfy`, module `Normalizer`: `parse_json_safely`. It strips whitespace,
  applies the three fence rules in source order, strips again and hands the text to a
  JSON parser given as a function.
- `csv_export.dfy`, module `CsvExport`: the CSV text built from the parsed snapshot,
  plus a reader that reads the export back as its seven values when none of them
  holds a double quote (CsvExport.CsvRoundTrip).
- `session.dfy`, module `Session`: the session-state slots as a class. It covers their
  first-run initialisation, the gate in front of an analysis, the analysis block that
  makes the three model calls and stores the results, and a whole page run. The model
  client is a function from request to outcome supplied by the caller. Each call goes
  through the method `Ask`, the only place that appends to the ghost field `sent`, so
  the order `sent` records is the order of the calls.
- `wrappers.dfy`, module `Wrappers`: an `Option` type.

## Model

| member | source | states |
|---|---|---|
| Text.IsSpace | app.py:254 | the characters `str.isspace` accepts, which `strip()` removes: space, tab to carriage return, U+001C to U+001F, U+0085, U+00A0 and the Unicode space separators; StripDecompose and StripUnique characterise `strip()` by it |
| Text.StartsWith | app.py:257-261 | `str.startswith(prefix)`: the text is at least as long as the prefix and its first characters are the prefix; DropJsonTag and DropOpeningFence test with it |
| Text.EndsWith | app.py:261-262 | `str.endswith(suffix)`: the text is at least as long as the suffix and its last characters are the suffix; DropClosingFence tests with it |
| Text.Strip | app.py:254 | the result has no whitespace at either end and is no longer than the input |
| Text.StripDecompose | app.py:254 | the input is whitespace, then the stripped text, then whitespace; it returns the offset where the stripped text sits |
| Text.StripUnique | app.py:254 | stripping whitespace that surrounds a text with no whitespace at its ends gives back exactly that text |
| Text.StripEmptyIffAllSpace | app.py:346 | `s.strip()` is empty exactly when every character of `s` is whitespace |
| Text.StripIgnoresSurroundingSpace | app.py:254 | extra whitespace around a text does not change its strip |
| Text.StripTrimmed | app.py:264 | strip leaves a text with no whitespace at its ends unchanged, so the second strip is idempotent |
| Text.Join | app.py:468 | `sep.join(items)`: "" for no items, the item itself for one, otherwise the items in order with the separator between each pair; SkillsColumnExample gives a concrete case |
| Extraction.Gathered | app.py:63-67 | the `text +=` accumulation over the pages read so far: each non-empty page text followed by "\n"; ExtractText keeps it as its loop invariant and GatheredIsTerminatedJoin characterises it |
| Extraction.GatheredStep | app.py:65-67 | one iteration of the page loop: a page that reads extends the pages read so far and adds exactly its text and a newline, or nothing when its text is empty |
| Extraction.NonEmptyTexts | app.py:64-67 | the texts kept are at most one per page, and none of them is empty |
| Extraction.ExtractedText | app.py:51-71 | what `extract_text_from_pdf` returns: "" for an unreadable document or a page that fails, otherwise the stripped accumulation of the pages; ExtractionJoinsPages and ExtractedTextEmptyIff characterise it and ExtractText computes it |
| Extraction.ExtractText | app.py:61-71 | the loop returns the text its specification function gives: "" for an unreadable document or as soon as a page fails; otherwise the stripped accumulation of non-empty pages, each followed by a newline |
| Extraction.GatheredIsTerminatedJoin | app.py:63-67 | the accumulated text is the non-empty page texts joined by newlines, plus a final newline, or "" when there are none |
| Extraction.ExtractionJoinsPages | app.py:63-68 | when all pages read, the result is the non-empty page texts joined by newlines and stripped |
| Extraction.ExtractedTextEmptyIff | app.py:61-71 | extraction gives "" exactly when the document or a page cannot be read, or every page's text is whitespace (zero pages included) |
| Prompts.FitScorePrompt | app.py:101-133 | head, job description, middle, CV and tail concatenated; the head, middle and tail constants are the f-string's text character for character; FitScorePromptLayout and TwoSlotPromptsInjective state what follows |
| Prompts.SnapshotPrompt | app.py:137-168 | head, CV and tail concatenated; the constants are the f-string's text with each `{{` and `}}` undoubled; SnapshotPromptLayout and SnapshotPromptInjective state what follows |
| Prompts.InterviewKitPrompt | app.py:171-246 | head, job description, middle, CV and tail concatenated; the constants are the f-string's text character for character; InterviewKitPromptLayout and TwoSlotPromptsInjective state what follows |
| Prompts.PromptText | app.py:101-246 | the prompt each `generate_*` function builds for its request; RunPromptTextsDistinct and PromptKindsDiffer state how they differ |
| Prompts.RunRequests | app.py:353-365 | the requests of one analysis in call order: fit score, snapshot, interview kit; RunAnalysis's ensures append exactly these to the trace |
| Prompts.FitScorePromptLayout | app.py:106-132 | the fit-score prompt is the template head, the job description verbatim, the middle, the CV verbatim and the tail, at computed positions |
| Prompts.SnapshotPromptLayout | app.py:142-166 | the snapshot prompt is its head, the CV verbatim and its tail |
| Prompts.InterviewKitPromptLayout | app.py:176-244 | the interview-kit prompt is its head, the job description verbatim, its middle, the CV verbatim and its tail |
| Prompts.TwoSlotPromptsInjective | app.py:106-112 | with the job description's length fixed, equal fit-score prompts (and equal interview-kit prompts) come from equal CV and job description |
| Prompts.SnapshotPromptInjective | app.py:142-145 | equal snapshot prompts come from equal CV texts |
| Prompts.TwoSlotPromptsAmbiguous | app.py:108-112 | without escaping, a job description or CV containing the template's middle text gives the same prompt as a different pair of inputs |
| Prompts.PromptKindsDiffer | app.py:101-246 | no prompt of one kind equals a prompt of another kind, whatever the inputs |
| Prompts.RunPromptTextsDistinct | app.py:353-365 | the three requests of an analysis send three pairwise different prompt texts |
| Normalizer.DropJsonTag | app.py:257-258 | the first rule: a text opening with "```json" loses those seven characters, any other text is kept; never lengthens the text |
| Normalizer.DropOpeningFence | app.py:259-260 | the second rule, tested on what the first rule left: a text opening with "```" loses those three characters; never lengthens the text |
| Normalizer.DropClosingFence | app.py:261-262 | the third rule: a text ending with "```" loses those three characters; never lengthens the text |
| Normalizer.Unfence | app.py:257-262 | the fence rules only remove text: the result is never longer than the input |
| Normalizer.Clean | app.py:254-264 | the cleaned text has no whitespace at its ends and is no longer than the answer |
| Normalizer.ParseJsonSafely | app.py:249-269 | exactly one of record and error is present; the record is present exactly when the parser decodes the cleaned text, and both halves carry the parser's own value or message |
| Normalizer.CleanIsInfix | app.py:254-264 | the cleaned text is a contiguous piece of the answer: cleaning only cuts at the ends |
| Normalizer.JsonFenceOpensWithFence | app.py:257-260 | a text that opens with "```json" also opens with "```", so a text that does not open with "```" passes neither opening test (CleanPlainUnchanged relies on this) |
| Normalizer.CleanPlainUnchanged | app.py:254-264 | a trimmed answer with no fence at either end reaches the parser unchanged |
| Normalizer.CleanIgnoresSurroundingSpace | app.py:254 | whitespace around the answer does not change the cleaned text |
| Normalizer.CleanJsonFenced | app.py:257-264 | "```json" + body + "```" cleans to the stripped body, when the body does not open with a further fence |
| Normalizer.CleanBareFenced | app.py:259-264 | "```" + body + "```" cleans to the stripped body, when the body does not open with "json" |
| Normalizer.CleanJsonTagThenFence | app.py:257-262 | "```json```" + body + "```" loses both opening markers and the closing one |
| Normalizer.CleanFencedLines | app.py:254-264 | the usual answer "```json", newline, object text, newline, "```" cleans to the object text |
| Normalizer.ParsePlainAnswer | app.py:249-269 | a plain answer is parsed as it is: the result is the parser's own outcome on it |
| CsvExport.ExportFields | app.py:468 | seven values: each of the six keys' value in order, or "" when the key is missing, then the skills joined by ", " ("" when missing) |
| CsvExport.Lookup | app.py:468 | `data.get(key, '')`: the key's value, or "" when the key is missing; ExportFields states it per column |
| CsvExport.QuotedRow | app.py:468 | the values each between double quotes and separated by commas, with nothing escaped; CsvRoundTrip and EmbeddedSeparatorSplits state what follows |
| CsvExport.CsvText | app.py:467-469 | the header line, a line break, the quoted row and a final line break; CsvRoundTrip reads it back |
| CsvExport.CsvRoundTrip | app.py:467-469 | when none of the seven exported values holds a double quote, the exported text reads back as the header line and exactly those seven values; unexported keys such as "summary" may hold anything |
| CsvExport.QuoteFreeRecordExports | app.py:468 | a record with no double quote in any value or skill exports seven quote-free values, so the round trip applies to it |
| CsvExport.EmbeddedSeparatorSplits | app.py:468 | a value holding `","` is written exactly as two separate values would be |
| CsvExport.EmptySnapshotExport | app.py:467-469 | a record with none of the keys exports the header and seven empty quoted fields |
| CsvExport.SkillsColumnExample | app.py:468 | skills ["Go", "Rust"] give the skills column "Go, Rust" |
| Session.CallModel | app.py:84-98 | a response gives its text; a raised call gives "API Error: " followed by the reason; the call itself never fails |
| Session.AnalysisSession.Ask | app.py:353-365 | one call of the model: the answer is `call_gemini_api`'s answer for the request, the request is appended to `sent`, and no slot changes |
| Session.ShouldRun | app.py:346 | `analyze_button and cv_text and jd_text.strip()`; ShouldRunIff restates it without `strip()` |
| Session.CvText | app.py:297-300 | "" without an upload, else what extraction yields; NoUploadNoRun and UnreadableUploadNoRun use it |
| Session.InitialSlots | app.py:339-343 | the defaults: not complete, three empty answers and no record; InitialRecordMatches shows they are consistent |
| Session.AnalysisSlots | app.py:353-369 | the slots after an analysis: the fit score, snapshot and interview-kit answers each in their own slot, the record made from the snapshot answer, the run complete; AnalysisRecordMatches states the invariant |
| Session.ShouldRunIff | app.py:346 | the analysis runs exactly when the button was pressed, there is CV text, and the job description has a non-whitespace character |
| Session.NoUploadNoRun | app.py:297-300 | without an upload no analysis runs |
| Session.UnreadableUploadNoRun | app.py:297-300 | an upload the reader cannot open gives no CV text, so no analysis runs |
| Session.AnalysisSession.constructor | app.py:338 | a new session has none of the result keys and has made no requests |
| Session.AnalysisSession.InitSlots | app.py:337-343 | the first run sets the five slots to their defaults; later runs leave them as they were; no request is made |
| Session.AnalysisSession.RunAnalysis | app.py:345-369 | with the gate open: fit score, snapshot and interview kit are requested in that order, each slot holds its own answer, the record is the normaliser's result on the snapshot answer, and the run is complete; with it closed: nothing is requested and no slot changes |
| Session.StoredSlots | app.py:353-369 | the slots once the three answers are stored: each answer in its own slot, the record made from the snapshot answer, the run complete; Store's ensures give it |
| Session.AnalysisSession.Analyse | app.py:351-369 | the answers are asked for through Ask, fit score first, then snapshot, then interview kit, so the requests sent are exactly those three in that order; the slots end as AnalysisSlots gives |
| Session.AnalysisSession.Store | app.py:353-369 | the three answers go to their own slots, the record is the normaliser's result on the snapshot answer, the run is complete, and `sent` is unchanged |
| Session.AnalysisSession.PageRun | app.py:296-369 | a page run extracts the CV, initialises on first use, then changes the slots and requests exactly as the analysis block does behind its gate |
| Session.AnalysisRecordMatches | app.py:357-361 | after an analysis the record slot is what the normaliser makes of the snapshot slot, and the run is marked complete |
| Session.InitialRecordMatches | app.py:338-343 | the default slots keep the record in step with the empty snapshot answer, for a parser that rejects empty text |
| Session.PageRunKeepsRecord | app.py:337-369 | a page run keeps the record in step with the snapshot answer, whether or not the analysis ran |
| Session.KitFailureScenario | app.py:363-369 | when only the interview-kit call raises, the analysis still completes: the fit-score and snapshot slots hold their answers, the snapshot answer is parsed into the record, the kit slot holds "API Error: " and the reason, and the three requests were sent in order |

## Left out

- The Streamlit interface is not modelled: page layout, sidebar widgets, word count, captions, progress bar, result display (lines 374-455) and download buttons. The button's disabled state (line 325) is the same condition as the gate at line 346, and only the gate is modelled.
- PyPDF2 is not modelled. A document is given as what the library yields: unreadable, or per page a text or a read failure. The `st.error` message on failure is left out because it is display only.
- The Gemini client (lines 85-96) is a function from request to outcome passed in by the caller. The model name, message wrapper, API key and environment loading (lines 1-45) are left out.
- Session.CallModel: the client is keyed by `Request` (prompt kind and inputs), not by prompt text. This generalises a client keyed by text: every such model m gives the client `r => m(PromptText(r))`. Prompts.RunPromptTextsDistinct shows the three texts of one run are distinct, so any outcomes for the three calls of a run are also reachable by a text-keyed model.
- Session.CallModel: the client is a function, so repeating a request gives the same outcome. An analysis makes each of its three requests once, and different page runs can be given different clients.
- `json.loads` is passed in as `parse`. Its result is restricted to the snapshot record (`CsvExport.Snapshot`), so a parser returning a list, a number, a string or a boolean is not modelled. A falsy one (`[]`, `0`, `""`, `false`) fails the test at line 397, so the raw answer would be shown. A truthy one would make `data.get` at line 405 raise. The error half of the pair is dropped at line 361, as in the source.
- Normalizer.ParseJsonSafely: JSON `null` is not modelled. For an answer that decodes to `null`, `json.loads` returns None, and the source returns `(None, None)` with neither half present. The ensures "exactly one of record and error" does not cover this case. Exceptions other than `JSONDecodeError` are not modelled either. Examples are `RecursionError` on deeply nested arrays and `ValueError` on an integer literal of more than 4300 digits. Line 268 does not catch them, so they escape `parse_json_safely` and stop the analysis block at line 360, after two slots have been overwritten.
- CsvExport.ExportFields: field values are taken already rendered as text. `str()` of numbers and of null (which prints `None`) is not modelled. `skills` is taken to be a list of strings. Other JSON values cannot be expressed in the record type. A string gives its characters joined by ", " ("Go" gives "G, o"). An object gives its keys joined. Null, a number, or a list holding a non-string makes `', '.join` raise.
- The `if st.session_state.snapshot_json:` test (line 397) in front of the export is not modelled. The export is defined for every record, including the empty one that this test skips.
- The two opening fence rules are tested one after the other, so both can fire: "```json```" loses two markers (Normalizer.CleanJsonTagThenFence).
- Session.CallModel: `response.text` is taken to be a string. The client library can give None (a response with no text part). The snapshot answer would then make `strip()` at line 254 raise, which nothing catches. The analysis block would stop after lines 353 and 357 had already overwritten two slots. The model treats the block as all-or-nothing. Session.AnalysisSession.Store writes all slots after the three calls. This gives the source's final state because no call can fail part-way in the model. A run aborted mid-way is not represented.
