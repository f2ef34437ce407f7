/** The three prompt builders (`generate_fit_score`, `generate_candidate_snapshot`,
    `generate_interview_kit`). Each is a fixed template with the job description
    and/or the CV text substituted verbatim, without any escaping. The templates'
    line breaks are single newlines. */
module Prompts {
  import opened Text

  /** The role the fit-score template opens with. */
  const FitScoreOpening: string := "You are an expert recruiter assistant."

  /** Fit-score template up to the job description (app.py lines 106-108). */
  const FitScoreHead: string := FitScoreOpening + @" Analyze how well this CV matches the job description.

JOB DESCRIPTION:
"

  /** Between the job description and the CV (lines 109-111). */
  const FitScoreMiddle: string := @"

CANDIDATE CV:
"

  /** After the CV: the requested report layout (lines 112-132). */
  const FitScoreTail: string := @"

Provide your analysis in this EXACT markdown format:

## 🎯 FIT SCORE: [number 0-100]/100

### ✅ Matched Requirements
- **[requirement 1]:** [brief evidence from CV]
- **[requirement 2]:** [brief evidence from CV]
- **[requirement 3]:** [brief evidence from CV]
- **[requirement 4]:** [brief evidence from CV]
- **[requirement 5]:** [brief evidence from CV]

### ⚠️ Missing/Weak Areas
- **[gap 1]:** [what's missing or weak]
- **[gap 2]:** [what's missing or weak]

### 📋 Verdict
**[Strong Fit / Moderate Fit / Weak Fit]:** [One sentence recommendation]

Use proper markdown with headers (##, ###), bold (**text**), and bullet points (-). Keep it well-structured and readable."

  /** The role the snapshot template opens with. */
  const SnapshotOpening: string := "You are a CV parsing expert."

  /** Snapshot template up to the CV (lines 142-144). */
  const SnapshotHead: string := SnapshotOpening + @" Extract key information from this CV into a structured format.

CV TEXT:
"

  /** After the CV: the requested JSON shape, with the f-string's doubled braces as single braces (lines 145-166). */
  const SnapshotTail: string := @"

Return ONLY valid JSON (no markdown, no code blocks, no extra text). Use this exact structure:
{
    ""name"": ""Full Name"",
    ""email"": ""email@example.com"",
    ""phone"": ""phone number or null"",
    ""linkedin"": ""LinkedIn URL or null"",
    ""summary"": ""2-3 sentence professional summary"",
    ""experience_years"": ""estimated total years"",
    ""current_role"": ""most recent job title"",
    ""current_company"": ""most recent company"",
    ""skills"": [""skill1"", ""skill2"", ""skill3""],
    ""tools_technologies"": [""tool1"", ""tool2""],
    ""education"": [
        {""degree"": ""Degree Name"", ""institution"": ""University"", ""year"": ""Year""}
    ],
    ""key_achievements"": [""achievement 1"", ""achievement 2""],
    ""languages"": [""English"", ""Other""]
}

If any field is not found in the CV, use null for single values or empty array [] for lists."

  /** The role the interview-kit template opens with. */
  const InterviewKitOpening: string := "You are a senior hiring manager."

  /** Interview-kit template up to the job description (lines 176-178). */
  const InterviewKitHead: string := InterviewKitOpening + @" Create an interview kit for this candidate.

JOB DESCRIPTION:
"

  /** Between the job description and the CV (lines 179-181). */
  const InterviewKitMiddle: string := @"

CANDIDATE CV:
"

  /** After the CV: the requested kit layout (lines 182-244). */
  const InterviewKitTail: string := @"

Generate an interview kit in this EXACT markdown format:

## 🎤 Role-Specific Questions

### Question 1: Experience
**Q:** [Question about their relevant experience]

✅ **Strong Answer Should Include:** [What a good answer includes]

---

### Question 2: Technical Skills
**Q:** [Technical/skill-based question from JD requirements]

✅ **Strong Answer Should Include:** [What a good answer includes]

---

### Question 3: Project Deep-Dive
**Q:** [Question about a specific project from their CV]

✅ **Strong Answer Should Include:** [What a good answer includes]

---

### Question 4: Behavioral
**Q:** [Behavioral question relevant to the role]

✅ **Strong Answer Should Include:** [What a good answer includes]

---

### Question 5: Problem-Solving
**Q:** [Problem-solving question for the role]

✅ **Strong Answer Should Include:** [What a good answer includes]

---

### Question 6: Culture Fit
**Q:** [Culture/teamwork question]

✅ **Strong Answer Should Include:** [What a good answer includes]

---

## 🔍 Clarification Questions (Address Gaps/Concerns)

### Clarification 1
**Q:** [Question about a gap, unclear period, or missing requirement]

🎯 **Why Ask This:** [What you're trying to clarify]

---

### Clarification 2
**Q:** [Question about a potential risk area]

🎯 **Why Ask This:** [What you're trying to clarify]

Use proper markdown formatting with headers, bold text, and horizontal rules (---) for clear separation."

  /** The fit-score prompt (`generate_fit_score(cv_text, jd_text)`). */
  function FitScorePrompt(cvText: string, jdText: string): string
  {
    FitScoreHead + jdText + FitScoreMiddle + cvText + FitScoreTail
  }

  /** The snapshot prompt (`generate_candidate_snapshot(cv_text)`): it reads only the CV. */
  function SnapshotPrompt(cvText: string): string
  {
    SnapshotHead + cvText + SnapshotTail
  }

  /** The interview-kit prompt (`generate_interview_kit(cv_text, jd_text)`). */
  function InterviewKitPrompt(cvText: string, jdText: string): string
  {
    InterviewKitHead + jdText + InterviewKitMiddle + cvText + InterviewKitTail
  }

  /** One of the three requests an analysis makes, with the inputs its prompt is built
      from. */
  datatype Request =
    | FitScoreRequest(cvText: string, jdText: string)
    | SnapshotRequest(cvText: string)
    | InterviewKitRequest(cvText: string, jdText: string)

  /** The prompt text a request sends to the model. */
  function PromptText(r: Request): string
  {
    match r
    case FitScoreRequest(cv, jd) => FitScorePrompt(cv, jd)
    case SnapshotRequest(cv) => SnapshotPrompt(cv)
    case InterviewKitRequest(cv, jd) => InterviewKitPrompt(cv, jd)
  }

  /** Where the two substituted texts sit in `head + first + middle + second + tail`. */
  lemma TwoSlotPositions(head: string, first: string, middle: string, second: string, tail: string)
    ensures var p := head + first + middle + second + tail;
            var at := |head| + |first| + |middle|;
            |p| == at + |second| + |tail| &&
            StartsWith(p, head) && EndsWith(p, tail) &&
            p[|head|..|head| + |first|] == first &&
            p[|head| + |first|..at] == middle &&
            p[at..at + |second|] == second
  {
    var p := head + first + middle + second + tail;
    var at := |head| + |first| + |middle|;
    assert p == (head + first + middle) + (second + tail);
    assert p[at..at + |second|] == (second + tail)[..|second|];
    assert p[|head|..|head| + |first|] == (head + first)[|head|..];
    assert p[|head| + |first|..at] == (head + first + middle)[|head| + |first|..];
    assert p[..|head|] == (head + first)[..|head|];
    assert p[|p| - |tail|..] == ((head + first + middle + second) + tail)[|p| - |tail|..];
  }

  /** Where the substituted text sits in `head + slot + tail`. */
  lemma OneSlotPositions(head: string, slot: string, tail: string)
    ensures var p := head + slot + tail;
            |p| == |head| + |slot| + |tail| &&
            StartsWith(p, head) && EndsWith(p, tail) &&
            p[|head|..|head| + |slot|] == slot
  {
    var p := head + slot + tail;
    assert p[..|head|] == head;
    assert p[|head|..|head| + |slot|] == slot;
    assert p[|p| - |tail|..] == tail;
  }

  /** Filling `head + _ + middle + _ + tail` is one-to-one once the length of the
      first text is fixed. */
  lemma TwoSlotInjective(head: string, middle: string, tail: string,
                         a1: string, b1: string, a2: string, b2: string)
    requires |a1| == |a2|
    ensures head + a1 + middle + b1 + tail == head + a2 + middle + b2 + tail ==> a1 == a2 && b1 == b2
  {
    TwoSlotPositions(head, a1, middle, b1, tail);
    TwoSlotPositions(head, a2, middle, b2, tail);
    if head + a1 + middle + b1 + tail == head + a2 + middle + b2 + tail {
      assert |b1| == |b2|;
    }
  }

  /** Filling `head + _ + tail` is one-to-one. */
  lemma OneSlotInjective(head: string, tail: string, a1: string, a2: string)
    ensures head + a1 + tail == head + a2 + tail ==> a1 == a2
  {
    if head + a1 + tail == head + a2 + tail {
      assert a1 == (head + a1 + tail)[|head|..|head| + |a1|];
      assert a2 == (head + a2 + tail)[|head|..|head| + |a2|];
    }
  }

  /** The fit-score prompt is its template's head, then the job description verbatim,
      then the template's middle, then the CV verbatim, then its tail. */
  lemma FitScorePromptLayout(cvText: string, jdText: string)
    ensures var p := FitScorePrompt(cvText, jdText);
            var at := |FitScoreHead| + |jdText| + |FitScoreMiddle|;
            |p| == at + |cvText| + |FitScoreTail| &&
            StartsWith(p, FitScoreHead) && EndsWith(p, FitScoreTail) &&
            p[|FitScoreHead|..|FitScoreHead| + |jdText|] == jdText &&
            p[|FitScoreHead| + |jdText|..at] == FitScoreMiddle &&
            p[at..at + |cvText|] == cvText
  {
    TwoSlotPositions(FitScoreHead, jdText, FitScoreMiddle, cvText, FitScoreTail);
  }

  /** The interview-kit prompt has the same layout with its own template. */
  lemma InterviewKitPromptLayout(cvText: string, jdText: string)
    ensures var p := InterviewKitPrompt(cvText, jdText);
            var at := |InterviewKitHead| + |jdText| + |InterviewKitMiddle|;
            |p| == at + |cvText| + |InterviewKitTail| &&
            StartsWith(p, InterviewKitHead) && EndsWith(p, InterviewKitTail) &&
            p[|InterviewKitHead|..|InterviewKitHead| + |jdText|] == jdText &&
            p[|InterviewKitHead| + |jdText|..at] == InterviewKitMiddle &&
            p[at..at + |cvText|] == cvText
  {
    TwoSlotPositions(InterviewKitHead, jdText, InterviewKitMiddle, cvText, InterviewKitTail);
  }

  /** The snapshot prompt is its head, the CV verbatim, and its tail. */
  lemma SnapshotPromptLayout(cvText: string)
    ensures var p := SnapshotPrompt(cvText);
            |p| == |SnapshotHead| + |cvText| + |SnapshotTail| &&
            StartsWith(p, SnapshotHead) && EndsWith(p, SnapshotTail) &&
            p[|SnapshotHead|..|SnapshotHead| + |cvText|] == cvText
  {
    OneSlotPositions(SnapshotHead, cvText, SnapshotTail);
  }

  /** Given the length of the job description, the fit-score and interview-kit prompts
      determine both texts: equal prompts come from equal inputs. */
  lemma TwoSlotPromptsInjective(cv1: string, jd1: string, cv2: string, jd2: string)
    requires |jd1| == |jd2|
    ensures FitScorePrompt(cv1, jd1) == FitScorePrompt(cv2, jd2) ==> cv1 == cv2 && jd1 == jd2
    ensures InterviewKitPrompt(cv1, jd1) == InterviewKitPrompt(cv2, jd2) ==> cv1 == cv2 && jd1 == jd2
  {
    TwoSlotInjective(FitScoreHead, FitScoreMiddle, FitScoreTail, jd1, cv1, jd2, cv2);
    TwoSlotInjective(InterviewKitHead, InterviewKitMiddle, InterviewKitTail, jd1, cv1, jd2, cv2);
  }

  /** The snapshot prompt determines the CV text it was built from. */
  lemma SnapshotPromptInjective(cv1: string, cv2: string)
    ensures SnapshotPrompt(cv1) == SnapshotPrompt(cv2) ==> cv1 == cv2
  {
    OneSlotInjective(SnapshotHead, SnapshotTail, cv1, cv2);
  }

  /** Moving a copy of `middle` between the two slots leaves the filled-in text as it is. */
  lemma ShiftAcrossMiddle(head: string, middle: string, tail: string, x: string, y: string, z: string)
    ensures head + x + middle + (y + middle + z) + tail == head + (x + middle + y) + middle + z + tail
  {
  }

  /** Without escaping, the split point between the two texts is not recoverable from
      the prompt alone: a job description or CV that contains the template's middle
      text yields the same prompt as a different pair of inputs. */
  lemma TwoSlotPromptsAmbiguous(x: string, y: string, z: string)
    ensures (y + FitScoreMiddle + z, x) != (z, x + FitScoreMiddle + y)
    ensures FitScorePrompt(y + FitScoreMiddle + z, x) == FitScorePrompt(z, x + FitScoreMiddle + y)
    ensures (y + InterviewKitMiddle + z, x) != (z, x + InterviewKitMiddle + y)
    ensures InterviewKitPrompt(y + InterviewKitMiddle + z, x) == InterviewKitPrompt(z, x + InterviewKitMiddle + y)
  {
    ShiftAcrossMiddle(FitScoreHead, FitScoreMiddle, FitScoreTail, x, y, z);
    ShiftAcrossMiddle(InterviewKitHead, InterviewKitMiddle, InterviewKitTail, x, y, z);
    assert |x| < |x + FitScoreMiddle + y|;
    assert |x| < |x + InterviewKitMiddle + y|;
  }

  /** A character within `head` is where `head` puts it, whatever follows. */
  lemma CharInHead(head: string, a: string, m: string, b: string, t: string, i: nat)
    requires i < |head|
    ensures i < |head + a + m + b + t| && (head + a + m + b + t)[i] == head[i]
  {
  }

  /** The same for a template with one slot. */
  lemma CharInOneSlotHead(head: string, a: string, t: string, i: nat)
    requires i < |head|
    ensures i < |head + a + t| && (head + a + t)[i] == head[i]
  {
  }

  /** The characters at positions 9 and 10 of the template heads, where the three
      templates' opening words first differ. */
  lemma HeadsDiffer()
    ensures |FitScoreHead| > 10 && |SnapshotHead| > 10 && |InterviewKitHead| > 10
    ensures FitScoreHead[9] == 'n' && SnapshotHead[9] == ' ' && InterviewKitHead[9] == ' '
    ensures SnapshotHead[10] == 'C' && InterviewKitHead[10] == 's'
  {
  }

  /** Two strings that differ at a position inside both are different. */
  lemma DifferAt(p: string, q: string, i: nat)
    requires i < |p| && i < |q| && p[i] != q[i]
    ensures p != q
  {
  }

  /** No fit-score prompt equals a snapshot or interview-kit prompt, and no snapshot
      prompt equals an interview-kit prompt, whatever the inputs: the templates' opening
      words tell the three kinds apart. */
  lemma PromptKindsDiffer(cv1: string, jd1: string, cv2: string, jd2: string)
    ensures FitScorePrompt(cv1, jd1) != SnapshotPrompt(cv2)
    ensures FitScorePrompt(cv1, jd1) != InterviewKitPrompt(cv2, jd2)
    ensures SnapshotPrompt(cv1) != InterviewKitPrompt(cv2, jd2)
  {
    HeadsDiffer();
    CharInHead(FitScoreHead, jd1, FitScoreMiddle, cv1, FitScoreTail, 9);
    CharInHead(InterviewKitHead, jd2, InterviewKitMiddle, cv2, InterviewKitTail, 9);
    CharInHead(InterviewKitHead, jd2, InterviewKitMiddle, cv2, InterviewKitTail, 10);
    CharInOneSlotHead(SnapshotHead, cv1, SnapshotTail, 10);
    CharInOneSlotHead(SnapshotHead, cv2, SnapshotTail, 9);
    DifferAt(FitScorePrompt(cv1, jd1), SnapshotPrompt(cv2), 9);
    DifferAt(FitScorePrompt(cv1, jd1), InterviewKitPrompt(cv2, jd2), 9);
    DifferAt(SnapshotPrompt(cv1), InterviewKitPrompt(cv2, jd2), 10);
  }

  /** The requests of one analysis, in the order it makes them. */
  function RunRequests(cvText: string, jdText: string): seq<Request>
  {
    [FitScoreRequest(cvText, jdText), SnapshotRequest(cvText), InterviewKitRequest(cvText, jdText)]
  }

  /** The three requests of an analysis send three different prompt texts, so a model
      that answers by prompt text can answer each of them differently. */
  lemma RunPromptTextsDistinct(cvText: string, jdText: string)
    ensures var rs := RunRequests(cvText, jdText);
            |rs| == 3 && PromptText(rs[0]) != PromptText(rs[1]) &&
            PromptText(rs[0]) != PromptText(rs[2]) && PromptText(rs[1]) != PromptText(rs[2])
  {
    PromptKindsDiffer(cvText, jdText, cvText, jdText);
  }
}
