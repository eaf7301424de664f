/** The line discipline of src/utils/prompts.ts: trimIndent, the `- item`
    rendering of lists, and how a joined template falls apart into trimmed lines. */
module PromptLines {
  import opened JsStrings

  /** The text between line breaks, one piece per line. */
  function Lines(text: string): seq<string> { Split(text, '\n') }

  /** trimIndent: trims every separator-delimited piece and joins them again. */
  function TrimIndent(text: string, separator: char): (r: string)
    ensures Split(r, separator) == TrimEach(Split(text, separator))
    ensures forall piece | piece in Split(r, separator) :: IsTrimmed(piece)
  {
    TrimEachKeepsOut(Split(text, separator), separator);
    SplitJoin(TrimEach(Split(text, separator)), separator);
    Join(TrimEach(Split(text, separator)), separator)
  }

  /** Trimming pieces a second time changes nothing. */
  lemma TrimIndentIdempotent(text: string, separator: char)
    ensures TrimIndent(TrimIndent(text, separator), separator) == TrimIndent(text, separator)
  {
    TrimEachIdempotent(Split(text, separator));
  }

  /** `items.map(item => `- ${item}`)`. */
  function Bulleted(items: seq<string>): (r: seq<string>)
    ensures |r| == |items|
    ensures forall k | 0 <= k < |r| :: |r[k]| >= 2 && r[k][..2] == "- " && r[k][2..] == items[k]
  {
    seq(|items|, k requires 0 <= k < |items| => "- " + items[k])
  }

  /** The lines of a text, each trimmed. */
  function TrimmedLines(text: string): seq<string> { TrimEach(Lines(text)) }

  /** The trimmed lines of several texts, in order. */
  function TrimmedLinesEach(texts: seq<string>): seq<string> {
    if |texts| == 0 then [] else TrimmedLines(texts[0]) + TrimmedLinesEach(texts[1..])
  }

  /** How a list of items ends up in the prompt: the trimmed lines of each `- item`. */
  function BulletLines(items: seq<string>): seq<string> {
    TrimmedLinesEach(Bulleted(items))
  }

  /** A text that is one trimmed line. */
  predicate SingleLine(s: string) {
    '\n' !in s && IsTrimmed(s)
  }

  lemma SingleLineLines(s: string)
    requires SingleLine(s)
    ensures TrimmedLines(s) == [s]
  {
    SplitNoSeparator(s, '\n');
  }

  lemma {:induction false} SplitPrefix(p: string, s: string, sep: char)
    requires sep !in p
    ensures Split(p + s, sep) == [p + Split(s, sep)[0]] + Split(s, sep)[1..]
  {
    if |p| > 0 {
      assert (p + s)[0] == p[0] && (p + s)[1..] == p[1..] + s;
      SplitPrefix(p[1..], s, sep);
      assert [p[0]] + (p[1..] + Split(s, sep)[0]) == p + Split(s, sep)[0];
    } else {
      var parts := Split(s, sep);
      assert p + s == s && p + parts[0] == parts[0];
      assert [parts[0]] + parts[1..] == parts;
    }
  }

  /** Indentation in front of a text never reaches its trimmed lines. */
  lemma IndentedLines(indent: string, s: string)
    requires forall k | 0 <= k < |indent| :: IsWhitespace(indent[k]) && indent[k] != '\n'
    ensures TrimmedLines(indent + s) == TrimmedLines(s)
  {
    var parts := Split(s, '\n');
    assert '\n' !in indent;
    assert Split(indent + s, '\n') == [indent + parts[0]] + parts[1..] by {
      SplitPrefix(indent, s, '\n');
    }
    assert Trim(indent + parts[0]) == Trim(parts[0]) by {
      TrimLeadingWhitespace(indent, parts[0]);
    }
    calc {
      TrimmedLines(indent + s);
      TrimEach(Split(indent + s, '\n'));
      TrimEach([indent + parts[0]] + parts[1..]);
      { TrimEachCons(indent + parts[0], parts[1..]); }
      [Trim(indent + parts[0])] + TrimEach(parts[1..]);
      [Trim(parts[0])] + TrimEach(parts[1..]);
      { TrimEachCons(parts[0], parts[1..]); }
      TrimEach([parts[0]] + parts[1..]);
      { assert [parts[0]] + parts[1..] == parts; }
      TrimEach(parts);
    }
  }

  lemma {:induction false} TrimmedLinesEachConcat(a: seq<string>, b: seq<string>)
    ensures TrimmedLinesEach(a + b) == TrimmedLinesEach(a) + TrimmedLinesEach(b)
  {
    if |a| > 0 {
      assert (a + b)[0] == a[0] && (a + b)[1..] == a[1..] + b;
      TrimmedLinesEachConcat(a[1..], b);
    } else {
      assert a + b == b;
    }
  }

  lemma TrimmedLinesOfOne(a: string)
    ensures TrimmedLinesEach([a]) == TrimmedLines(a)
  {
    assert [a][1..] == [];
  }

  lemma TrimmedLinesOfThree(a: string, b: string, c: string)
    ensures TrimmedLinesEach([a, b, c]) == TrimmedLines(a) + TrimmedLines(b) + TrimmedLines(c)
  {
    assert [a, b, c] == [a] + [b] + [c];
    TrimmedLinesEachConcat([a] + [b], [c]);
    TrimmedLinesEachConcat([a], [b]);
    TrimmedLinesOfOne(a);
    TrimmedLinesOfOne(b);
    TrimmedLinesOfOne(c);
  }

  lemma {:induction false} TrimEachSplitEach(texts: seq<string>)
    ensures TrimEach(SplitEach(texts, '\n')) == TrimmedLinesEach(texts)
  {
    if |texts| > 0 {
      TrimEachConcat(Split(texts[0], '\n'), SplitEach(texts[1..], '\n'));
      TrimEachSplitEach(texts[1..]);
    }
  }

  /** The trimmed lines of a join are those of the joined texts, in order. */
  lemma TrimmedJoin(texts: seq<string>)
    requires |texts| >= 1
    ensures TrimmedLines(Join(texts, '\n')) == TrimmedLinesEach(texts)
  {
    SplitJoinEach(texts, '\n');
    TrimEachSplitEach(texts);
  }

  lemma BulletLinesConcat(a: seq<string>, b: seq<string>)
    ensures BulletLines(a + b) == BulletLines(a) + BulletLines(b)
  {
    assert Bulleted(a + b) == Bulleted(a) + Bulleted(b);
    TrimmedLinesEachConcat(Bulleted(a), Bulleted(b));
  }

  /** An indented list joined by line breaks falls apart into its items' lines. */
  lemma ListLines(indent: string, items: seq<string>)
    requires forall k | 0 <= k < |indent| :: IsWhitespace(indent[k]) && indent[k] != '\n'
    requires |items| >= 1
    ensures TrimmedLines(indent + Join(Bulleted(items), '\n')) == BulletLines(items)
  {
    IndentedLines(indent, Join(Bulleted(items), '\n'));
    TrimmedJoin(Bulleted(items));
  }
}

/** The prompt builder of src/utils/prompts.ts: a pure function from the job and
    experience parameters to the text sent to the model. */
module Prompts {
  import opened JsStrings
  import opened ApiTypes
  import opened PromptLines
  import opened PromptText

  /** The indentation of every line of the prompt template. */
  const INDENT: string := "    "

  /** PromptOptions: each field is `None` when the caller leaves it undefined. */
  datatype PromptOptions = PromptOptions(
    systemMessage: Option<string>,
    additionalRequirements: Option<seq<string>>,
    additionalInstructions: Option<seq<string>>)

  /** `{}`, the options the adapters pass. */
  const DEFAULT_OPTIONS: PromptOptions := PromptOptions(None, None, None)

  /** `parameters.bulletPointCount || 5`. */
  function BulletCount(parameters: ResumeBulletPointParameters): (count: int)
    ensures count != 0
    ensures parameters.bulletPointCount != 0 ==> count == parameters.bulletPointCount
  {
    if parameters.bulletPointCount == 0 then 5 else parameters.bulletPointCount
  }

  /** The closing instruction naming the requested count (one sentence, kept in
      short pieces so that facts about its characters stay cheap to prove). */
  function FinalLine(count: int): string {
    "Return only the " + IntToString(count) + " bullet points, " + "one per line, without " + "numbering or bullet symbols."
  }

  /** The template literal of createResumeBulletsPrompt, one entry per source
      line (each list is itself joined with line breaks), section by section. */
  function PromptTemplate(parameters: ResumeBulletPointParameters, options: PromptOptions): seq<string> {
    SystemSection(options) + RequirementsSection(options) + JobSection(parameters)
    + ExperienceSection(parameters) + InstructionsSection(options)
    + [INDENT + FinalLine(BulletCount(parameters))]
  }

  function SystemSection(options: PromptOptions): seq<string> {
    ["", INDENT + TrimIndent(options.systemMessage.GetOr(SYSTEM_MESSAGE), ' '), ""]
  }

  function RequirementsSection(options: PromptOptions): seq<string> {
    ListSection("CRITICAL REQUIREMENTS:", CRITICAL_REQUIREMENTS + options.additionalRequirements.GetOr([]))
  }

  function JobSection(parameters: ResumeBulletPointParameters): seq<string> {
    [ INDENT + ("Job Title: " + parameters.jobTitle),
      INDENT + ("Company: " + parameters.company),
      INDENT + ("Job Description: " + parameters.jobDescription),
      "" ]
  }

  function ExperienceSection(parameters: ResumeBulletPointParameters): seq<string> {
    [ INDENT + ("Work Experience: " + parameters.workExperience),
      INDENT + ("Skills: " + parameters.skills),
      "" ]
  }

  function InstructionsSection(options: PromptOptions): seq<string> {
    ListSection("Instructions:", INSTRUCTIONS + options.additionalInstructions.GetOr([]))
  }

  /** A heading, the bulleted items joined by line breaks, and an empty line. */
  function ListSection(heading: string, items: seq<string>): seq<string> {
    [INDENT + heading, INDENT + Join(Bulleted(items), '\n'), ""]
  }

  /** createResumeBulletsPrompt: the template with every line trimmed. */
  function CreateResumeBulletsPrompt(parameters: ResumeBulletPointParameters, options: PromptOptions): (prompt: string)
    ensures forall line | line in Lines(prompt) :: IsTrimmed(line)
  {
    TrimIndent(Join(PromptTemplate(parameters, options), '\n'), '\n')
  }

  // ----- The layout of the prompt, line by line -----

  lemma IndentIsBlank()
    ensures forall k | 0 <= k < |INDENT| :: IsWhitespace(INDENT[k]) && INDENT[k] != '\n'
  {
  }

  lemma HeadingsAreSingleLines()
    ensures SingleLine("CRITICAL REQUIREMENTS:") && SingleLine("Instructions:")
  {
  }

  lemma FinalLineIsSingleLine(count: int)
    ensures SingleLine(FinalLine(count))
  {
  }


  lemma SystemLines(options: PromptOptions)
    ensures TrimmedLinesEach(SystemSection(options)) ==
      [""] + TrimmedLines(TrimIndent(options.systemMessage.GetOr(SYSTEM_MESSAGE), ' ')) + [""]
  {
    var s := SystemSection(options);
    TrimmedLinesOfThree(s[0], s[1], s[2]);
    IndentIsBlank();
    IndentedLines(INDENT, TrimIndent(options.systemMessage.GetOr(SYSTEM_MESSAGE), ' '));
    SingleLineLines("");
  }

  lemma ListSectionLines(heading: string, fixed: seq<string>, additions: seq<string>)
    requires SingleLine(heading) && |fixed| >= 1
    ensures TrimmedLinesEach(ListSection(heading, fixed + additions)) ==
      [heading] + BulletLines(fixed) + BulletLines(additions) + [""]
  {
    var head := INDENT + heading;
    var body := INDENT + Join(Bulleted(fixed + additions), '\n');
    assert ListSection(heading, fixed + additions) == [head, body, ""];
    TrimmedLinesOfThree(head, body, "");
    IndentIsBlank();
    IndentedLines(INDENT, heading);
    SingleLineLines(heading);
    ListLines(INDENT, fixed + additions);
    BulletLinesConcat(fixed, additions);
    SingleLineLines("");
    assert [heading] + (BulletLines(fixed) + BulletLines(additions)) + [""] ==
      [heading] + BulletLines(fixed) + BulletLines(additions) + [""];
  }

  lemma RequirementLines(options: PromptOptions)
    ensures TrimmedLinesEach(RequirementsSection(options)) ==
      ["CRITICAL REQUIREMENTS:"] + BulletLines(CRITICAL_REQUIREMENTS)
      + BulletLines(options.additionalRequirements.GetOr([])) + [""]
  {
    HeadingsAreSingleLines();
    ListSectionLines("CRITICAL REQUIREMENTS:", CRITICAL_REQUIREMENTS, options.additionalRequirements.GetOr([]));
  }

  lemma JobLines(parameters: ResumeBulletPointParameters)
    ensures TrimmedLinesEach(JobSection(parameters)) ==
      TrimmedLines("Job Title: " + parameters.jobTitle)
      + TrimmedLines("Company: " + parameters.company)
      + TrimmedLines("Job Description: " + parameters.jobDescription) + [""]
  {
    var s := JobSection(parameters);
    assert s == [s[0], s[1], s[2]] + [s[3]];
    TrimmedLinesEachConcat([s[0], s[1], s[2]], [s[3]]);
    TrimmedLinesOfThree(s[0], s[1], s[2]);
    TrimmedLinesOfOne(s[3]);
    IndentIsBlank();
    IndentedLines(INDENT, "Job Title: " + parameters.jobTitle);
    IndentedLines(INDENT, "Company: " + parameters.company);
    IndentedLines(INDENT, "Job Description: " + parameters.jobDescription);
    SingleLineLines("");
  }

  lemma ExperienceLines(parameters: ResumeBulletPointParameters)
    ensures TrimmedLinesEach(ExperienceSection(parameters)) ==
      TrimmedLines("Work Experience: " + parameters.workExperience)
      + TrimmedLines("Skills: " + parameters.skills) + [""]
  {
    var s := ExperienceSection(parameters);
    TrimmedLinesOfThree(s[0], s[1], s[2]);
    IndentIsBlank();
    IndentedLines(INDENT, "Work Experience: " + parameters.workExperience);
    IndentedLines(INDENT, "Skills: " + parameters.skills);
    SingleLineLines("");
  }

  lemma InstructionLines(options: PromptOptions)
    ensures TrimmedLinesEach(InstructionsSection(options)) ==
      ["Instructions:"] + BulletLines(INSTRUCTIONS)
      + BulletLines(options.additionalInstructions.GetOr([])) + [""]
  {
    HeadingsAreSingleLines();
    ListSectionLines("Instructions:", INSTRUCTIONS, options.additionalInstructions.GetOr([]));
  }

  lemma FinalLines(count: int)
    ensures TrimmedLinesEach([INDENT + FinalLine(count)]) == [FinalLine(count)]
  {
    TrimmedLinesOfOne(INDENT + FinalLine(count));
    IndentIsBlank();
    IndentedLines(INDENT, FinalLine(count));
    FinalLineIsSingleLine(count);
    SingleLineLines(FinalLine(count));
  }

  /** The prompt's lines, section by section: an empty line and the system
      message; the critical requirements, the fixed ones first and then the
      caller's additions; the job fields; the experience fields; the
      instructions, fixed ones first; and last the line naming the count. */
  lemma PromptLayout(parameters: ResumeBulletPointParameters, options: PromptOptions)
    ensures Lines(CreateResumeBulletsPrompt(parameters, options)) ==
      ([""] + TrimmedLines(TrimIndent(options.systemMessage.GetOr(SYSTEM_MESSAGE), ' ')) + [""])
      + (["CRITICAL REQUIREMENTS:"] + BulletLines(CRITICAL_REQUIREMENTS)
         + BulletLines(options.additionalRequirements.GetOr([])) + [""])
      + (TrimmedLines("Job Title: " + parameters.jobTitle)
         + TrimmedLines("Company: " + parameters.company)
         + TrimmedLines("Job Description: " + parameters.jobDescription) + [""])
      + (TrimmedLines("Work Experience: " + parameters.workExperience)
         + TrimmedLines("Skills: " + parameters.skills) + [""])
      + (["Instructions:"] + BulletLines(INSTRUCTIONS)
         + BulletLines(options.additionalInstructions.GetOr([])) + [""])
      + [FinalLine(BulletCount(parameters))]
  {
    var sys := SystemSection(options);
    var req := RequirementsSection(options);
    var job := JobSection(parameters);
    var exp := ExperienceSection(parameters);
    var ins := InstructionsSection(options);
    var last := [INDENT + FinalLine(BulletCount(parameters))];
    TrimmedJoin(PromptTemplate(parameters, options));
    TrimmedLinesEachConcat(sys + req + job + exp + ins, last);
    TrimmedLinesEachConcat(sys + req + job + exp, ins);
    TrimmedLinesEachConcat(sys + req + job, exp);
    TrimmedLinesEachConcat(sys + req, job);
    TrimmedLinesEachConcat(sys, req);
    SystemLines(options);
    RequirementLines(options);
    JobLines(parameters);
    ExperienceLines(parameters);
    InstructionLines(options);
    FinalLines(BulletCount(parameters));
  }

  /** The last line of every prompt names the count, 5 when none was given. */
  lemma PromptEndsWithCount(parameters: ResumeBulletPointParameters, options: PromptOptions)
    ensures var lines := Lines(CreateResumeBulletsPrompt(parameters, options));
      lines[|lines| - 1] == FinalLine(if parameters.bulletPointCount == 0 then 5 else parameters.bulletPointCount)
  {
    var template := PromptTemplate(parameters, options);
    var front := template[..|template| - 1];
    assert template == front + [INDENT + FinalLine(BulletCount(parameters))];
    TrimmedJoin(template);
    TrimmedLinesEachConcat(front, [INDENT + FinalLine(BulletCount(parameters))]);
    FinalLines(BulletCount(parameters));
  }
}

/** The fixed texts of src/utils/prompts.ts. */
module PromptText {
  /** The basic instructions, in order. The first one names 5 bullet points
      whatever count is requested. */
  const INSTRUCTIONS: seq<string> := [
    "Create 5 bullet points that rephrase the user's actual experience to match the target job",
    "Use action verbs and present the information in a compelling way",
    "Focus on experiences and skills that align with the job description",
    "Keep each bullet point concise (1-2 lines)",
    "Only include information that the user has explicitly provided",
    "Format as plain text without bullet points (just the text)"
  ]

  /** The anti-fabrication requirements, in order. */
  const CRITICAL_REQUIREMENTS: seq<string> := [
    "Base ALL content STRICTLY on the provided work experience and skills",
    "DO NOT fabricate, invent, or add any achievements, metrics, or accomplishments not mentioned",
    "DO NOT embellish, exaggerate, or enhance existing achievements beyond what was stated",
    "DO NOT assume or infer additional responsibilities or outcomes",
    "If the user hasn't provided specific metrics, do not create them",
    "Focus on rephrasing existing experience to highlight relevant aspects for the target role",
    "Use the exact skills and technologies mentioned by the user",
    "Maintain truthfulness and accuracy - the user must be able to discuss these points in interviews"
  ]

  /** The default system message, with its template-literal line breaks and
      indentation. */
  const SYSTEM_MESSAGE: string :=
    "\n"
    + "    You are a professional resume writer who creates accurate, truthful bullet points based ONLY \n"
    + "    on the information provided by the user. Your role is to rephrase and reframe the user's \n"
    + "    actual work experience to better align with the target job description.\n"
}
