/**
  The research assistant's pipeline rules: how a provider/model selection becomes an
  LLM handle, how the question-answering tool renders its answer, how the three
  agents and their three tasks are built, and how an empty crew result falls back
  to the persisted report.
 */
module Researcher {
  import opened Wrappers

  // ===========================================================================
  // Part 1. LLM configuration resolution (create_crew, provider and model)
  // ===========================================================================

  /** The sidebar's choice: a provider name and a model name, both free text. */
  datatype Selection = Selection(provider: string, model: string)

  /** The handle passed to the LLM client: a provider-prefixed model id and either an API key or a base URL. */
  datatype Llm = Llm(model: string, apiKey: Option<string>, baseUrl: Option<string>)

  /** Looking up a credential that the secret store does not hold raises a KeyError. */
  datatype ConfigError = MissingSecret(name: string)

  /** The three branches of the provider if/elif chain. */
  datatype Backend = Groq | Ollama | OpenAI

  const GroqKeyName := "GROQ_API_KEY"
  const OpenAIKeyName := "OPENAI_API_KEY"
  const OllamaBaseUrl := "http://localhost:11434"
  const DefaultOpenAIModel := "o1"

  /** Friendly model names that the OpenAI branch translates to concrete ids. */
  const FriendlyNames: map<string, string> := map["GPT-3.5" := "gpt-3.5-turbo", "GPT-4" := "gpt-4"]

  /** Which branch a provider string takes: only the exact strings "GROQ" and "Ollama" leave the default branch. */
  function BackendOf(provider: string): (b: Backend)
    ensures b == Groq <==> provider == "GROQ"
    ensures b == Ollama <==> provider == "Ollama"
  {
    if provider == "GROQ" then Groq
    else if provider == "Ollama" then Ollama
    else OpenAI
  }

  /** The prefix each backend puts in front of the model name. */
  function PrefixOf(b: Backend): string
  {
    match b
    case Groq => "groq/"
    case Ollama => "ollama/"
    case OpenAI => "openai/"
  }

  /** The name of the secret a backend needs; the local Ollama server needs none. */
  function CredentialOf(b: Backend): Option<string>
  {
    match b
    case Groq => Some(GroqKeyName)
    case Ollama => None
    case OpenAI => Some(OpenAIKeyName)
  }

  /**
    The OpenAI branch's model name: friendly names are translated, the o1 family
    is kept as is, any other name passes through, and an empty name becomes "o1".
   */
  function OpenAIModelName(model: string): (r: string)
    ensures r != ""
  {
    var mapped :=
      if model == "GPT-3.5" then "gpt-3.5-turbo"
      else if model == "GPT-4" then "gpt-4"
      else if model == "o1" then "o1"
      else if model == "o1-mini" then "o1-mini"
      else if model == "o1-preview" then "o1-preview"
      else model;
    if mapped == "" then DefaultOpenAIModel else mapped
  }

  /** The model name that follows the backend's prefix in the resolved id. */
  function ModelNameFor(sel: Selection): string
  {
    if BackendOf(sel.provider) == OpenAI then OpenAIModelName(sel.model) else sel.model
  }

  /**
    Resolves a selection against the secret store. It fails exactly when the
    branch taken needs a credential that the store does not hold.
   */
  function ResolveLlm(sel: Selection, secrets: map<string, string>): (r: Result<Llm, ConfigError>)
    ensures r.Failure? <==>
              CredentialOf(BackendOf(sel.provider)).Some? && CredentialOf(BackendOf(sel.provider)).value !in secrets
    ensures r.Failure? ==> r.error == MissingSecret(CredentialOf(BackendOf(sel.provider)).value)
    ensures r.Success? ==> (r.value.apiKey.Some? <==> r.value.baseUrl.None?)
  {
    if sel.provider == "GROQ" then
      if GroqKeyName in secrets then Success(Llm("groq/" + sel.model, Some(secrets[GroqKeyName]), None))
      else Failure(MissingSecret(GroqKeyName))
    else if sel.provider == "Ollama" then
      Success(Llm("ollama/" + sel.model, None, Some(OllamaBaseUrl)))
    else
      var model := OpenAIModelName(sel.model);
      if OpenAIKeyName in secrets then Success(Llm("openai/" + model, Some(secrets[OpenAIKeyName]), None))
      else Failure(MissingSecret(OpenAIKeyName))
  }

  /** Reads a resolved model id back into its backend and its model name. */
  function SplitModelId(id: string): Option<(Backend, string)>
  {
    if |id| >= 5 && id[..5] == "groq/" then Some((Groq, id[5..]))
    else if |id| >= 7 && id[..7] == "ollama/" then Some((Ollama, id[7..]))
    else if |id| >= 7 && id[..7] == "openai/" then Some((OpenAI, id[7..]))
    else None
  }

  /** GROQ: the id is "groq/" followed by the model exactly as given, keyed by GROQ_API_KEY. */
  lemma GroqPassThrough(model: string, secrets: map<string, string>)
    requires GroqKeyName in secrets
    ensures ResolveLlm(Selection("GROQ", model), secrets)
              == Success(Llm("groq/" + model, Some(secrets[GroqKeyName]), None))
  {
  }

  /** Ollama: the id is "ollama/" followed by the model, the local base URL and no API key, whatever the secrets. */
  lemma OllamaPassThrough(model: string, secrets: map<string, string>)
    ensures ResolveLlm(Selection("Ollama", model), secrets)
              == Success(Llm("ollama/" + model, None, Some(OllamaBaseUrl)))
  {
  }

  /** Every other provider string takes the OpenAI branch, keyed by OPENAI_API_KEY. */
  lemma OtherProvidersUseOpenAI(sel: Selection, secrets: map<string, string>)
    requires sel.provider != "GROQ" && sel.provider != "Ollama"
    requires OpenAIKeyName in secrets
    ensures ResolveLlm(sel, secrets)
              == Success(Llm("openai/" + OpenAIModelName(sel.model), Some(secrets[OpenAIKeyName]), None))
  {
  }

  /** The OpenAI name mapping agrees with the friendly-name table, the "o1" default for an empty name, and identity otherwise. */
  lemma OpenAIModelNameByTable(model: string)
    ensures OpenAIModelName(model) ==
              if model in FriendlyNames then FriendlyNames[model]
              else if model == "" then DefaultOpenAIModel
              else model
  {
  }

  /** The o1 family and every non-friendly non-empty name pass through unchanged. */
  lemma OpenAIPassThrough(model: string)
    requires model != "" && model !in FriendlyNames
    ensures OpenAIModelName(model) == model
  {
  }

  /** Mapping a name that is already concrete changes nothing. */
  lemma OpenAIModelNameIdempotent(model: string)
    ensures OpenAIModelName(OpenAIModelName(model)) == OpenAIModelName(model)
  {
  }

  /** In the OpenAI branch the id is never the bare prefix "openai/": an empty model becomes "openai/o1". */
  lemma OpenAIIdNeverBare(sel: Selection, secrets: map<string, string>)
    requires BackendOf(sel.provider) == OpenAI
    ensures ResolveLlm(sel, secrets).Success? ==> ResolveLlm(sel, secrets).value.model != "openai/"
    ensures sel.model == "" && OpenAIKeyName in secrets ==> ResolveLlm(sel, secrets).value.model == "openai/o1"
  {
  }

  /**
    The resolved id determines the branch taken and the model name used: it splits
    back into the backend of the provider and the (translated) model name.
   */
  lemma ModelIdRoundTrip(sel: Selection, secrets: map<string, string>)
    requires ResolveLlm(sel, secrets).Success?
    ensures ResolveLlm(sel, secrets).value.model == PrefixOf(BackendOf(sel.provider)) + ModelNameFor(sel)
    ensures SplitModelId(ResolveLlm(sel, secrets).value.model) == Some((BackendOf(sel.provider), ModelNameFor(sel)))
  {
    var id := ResolveLlm(sel, secrets).value.model;
    var name := ModelNameFor(sel);
    match BackendOf(sel.provider)
    case Groq =>
      assert id == "groq/" + name;
      assert id[..5] == "groq/" && id[5..] == name;
    case Ollama =>
      assert id == "ollama/" + name;
      assert id[0] == 'o' && id[1] == 'l';
      assert |id| >= 5 ==> id[..5] != "groq/";
      assert id[..7] == "ollama/" && id[7..] == name;
    case OpenAI =>
      assert id == "openai/" + name;
      assert id[0] == 'o' && id[1] == 'p';
      assert |id| >= 5 ==> id[..5] != "groq/";
      assert id[..7] != "ollama/";
      assert id[..7] == "openai/" && id[7..] == name;
  }

  // ===========================================================================
  // Part 2. The question-answering tool's output (EXAAnswerTool._run, after the HTTP call)
  // ===========================================================================

  /** One source the answer cites. */
  datatype Citation = Citation(title: string, url: string)

  /**
    The parsed answer endpoint response. `citations` is None both when the key is
    absent and when it holds JSON null; either way the tool prints no citations.
   */
  datatype AnswerResponse = AnswerResponse(answer: string, citations: Option<seq<Citation>>)

  /** The tool's configuration: its name, its description and the endpoint it posts to. */
  datatype Tool = Tool(name: string, description: string, answerUrl: string)

  const ExaAnswerTool := Tool("Ask Exa a question", "A tool that asks Exa a question and returns the answer.", "https://api.exa.ai/answer")

  /** The citation list, empty when the response has none. */
  function CitationsOf(resp: AnswerResponse): seq<Citation>
  {
    match resp.citations
    case None => []
    case Some(cs) => cs
  }

  /** The text that always opens the tool's output. */
  function AnswerHeader(answer: string): string
  {
    "Answer: " + answer + "\n\n"
  }

  /** One rendered citation: "- title (url)" and a newline. */
  function CitationLine(c: Citation): string
  {
    "- " + c.title + " (" + c.url + ")\n"
  }

  /** The citation lines, one per citation, in list order. */
  function CitationLines(cs: seq<Citation>): string
  {
    if cs == [] then "" else CitationLine(cs[0]) + CitationLines(cs[1..])
  }

  /**
    The text the agent receives: the answer header, then, only when there is at
    least one citation, a "Citations:" header and the citation lines.
   */
  function ToolOutput(resp: AnswerResponse): (r: string)
    ensures AnswerHeader(resp.answer) <= r
    ensures CitationsOf(resp) == [] <==> r == AnswerHeader(resp.answer)
  {
    var cs := CitationsOf(resp);
    var body := if cs == [] then "" else "Citations:\n" + CitationLines(cs);
    assert cs != [] ==> |body| > 0;
    AnswerHeader(resp.answer) + body
  }

  /** Rendering a concatenation of citation lists renders each list in turn. */
  lemma {:induction false} CitationLinesAppend(a: seq<Citation>, b: seq<Citation>)
    ensures CitationLines(a + b) == CitationLines(a) + CitationLines(b)
  {
    if a == [] {
      assert a + b == b;
    } else {
      assert (a + b)[0] == a[0];
      assert (a + b)[1..] == a[1..] + b;
      CitationLinesAppend(a[1..], b);
    }
  }

  /** Rendering one more citation appends its line. */
  lemma CitationLinesSnoc(cs: seq<Citation>, i: nat)
    requires i < |cs|
    ensures CitationLines(cs[..i + 1]) == CitationLines(cs[..i]) + CitationLine(cs[i])
  {
    assert cs[..i + 1] == cs[..i] + [cs[i]];
    CitationLinesAppend(cs[..i], [cs[i]]);
    assert CitationLines([cs[i]]) == CitationLine(cs[i]) + CitationLines([]);
  }

  /** `piece` appears in `s` starting at position `start`. */
  predicate OccursAt(s: string, start: int, piece: string)
  {
    0 <= start && start + |piece| <= |s| && s[start..start + |piece|] == piece
  }

  /** Putting text in front of a string moves every occurrence in it by the length of that text. */
  lemma OccursAtShift(h: string, s: string, start: int, piece: string)
    requires OccursAt(s, start, piece)
    ensures OccursAt(h + s, |h| + start, piece)
  {
  }

  /** The i-th citation's line sits right after the lines of the citations before it: the output keeps input order. */
  lemma CitationLineAt(cs: seq<Citation>, i: nat)
    requires i < |cs|
    ensures OccursAt(CitationLines(cs), |CitationLines(cs[..i])|, CitationLine(cs[i]))
  {
    var before, line, after := CitationLines(cs[..i]), CitationLine(cs[i]), CitationLines(cs[i + 1..]);
    assert cs == cs[..i] + ([cs[i]] + cs[i + 1..]);
    CitationLinesAppend(cs[..i], [cs[i]] + cs[i + 1..]);
    CitationLinesAppend([cs[i]], cs[i + 1..]);
    assert CitationLines([cs[i]]) == line + CitationLines([]);
    assert CitationLines(cs) == before + (line + after);
    assert (before + (line + after))[|before|..|before| + |line|] == line;
  }

  /** With citations, the output is the header, "Citations:\n" and the citation lines. */
  lemma ToolOutputWithCitations(resp: AnswerResponse)
    requires CitationsOf(resp) != []
    ensures ToolOutput(resp) == AnswerHeader(resp.answer) + "Citations:\n" + CitationLines(CitationsOf(resp))
  {
  }

  /** With citations, each citation's line appears in the output after the lines of those before it: one line per citation, in input order. */
  lemma ToolOutputCitationOrder(resp: AnswerResponse, i: nat)
    requires i < |CitationsOf(resp)|
    ensures OccursAt(ToolOutput(resp),
                     |AnswerHeader(resp.answer)| + |"Citations:\n"| + |CitationLines(CitationsOf(resp)[..i])|,
                     CitationLine(CitationsOf(resp)[i]))
  {
    var cs := CitationsOf(resp);
    var head := AnswerHeader(resp.answer) + "Citations:\n";
    ToolOutputWithCitations(resp);
    CitationLineAt(cs, i);
    OccursAtShift(head, CitationLines(cs), |CitationLines(cs[..i])|, CitationLine(cs[i]));
  }

  /** One citation {T, U} yields the answer header, the citations header and the single line "- T (U)". */
  lemma OneCitationExample(answer: string, t: string, u: string)
    ensures ToolOutput(AnswerResponse(answer, Some([Citation(t, u)])))
              == "Answer: " + answer + "\n\n" + "Citations:\n" + "- " + t + " (" + u + ")\n"
  {
    assert CitationLines([Citation(t, u)]) == CitationLine(Citation(t, u)) + CitationLines([]);
  }

  /** Builds the tool's output step by step, appending one line per citation. */
  method RunExaAnswerTool(resp: AnswerResponse) returns (output: string)
    ensures output == ToolOutput(resp)
  {
    var citations := CitationsOf(resp);
    output := AnswerHeader(resp.answer);
    if citations != [] {
      ghost var head := AnswerHeader(resp.answer) + "Citations:\n";
      output := output + "Citations:\n";
      for i := 0 to |citations|
        invariant output == head + CitationLines(citations[..i])
      {
        CitationLinesSnoc(citations, i);
        output := output + CitationLine(citations[i]);
      }
      assert citations[..|citations|] == citations;
    }
  }

  // ===========================================================================
  // Part 3. The agent pool and the task graph (create_crew, create_research_tasks)
  // ===========================================================================

  /** An agent descriptor as handed to the agent framework. */
  datatype Agent = Agent(
    role: string,
    goal: string,
    backstory: string,
    tools: seq<Tool>,
    llm: Llm,
    verbose: bool,
    allowDelegation: bool)

  const ResearcherRole := "Research Analyst"
  const AnalystRole := "Data Analyst"
  const WriterRole := "Content Writer"

  /** The three agents of a crew, in the order researcher, analyst, writer. */
  function AgentPool(llm: Llm): (agents: seq<Agent>)
    ensures |agents| == 3
    ensures agents[0].role == ResearcherRole && agents[1].role == AnalystRole && agents[2].role == WriterRole
    ensures forall i :: 0 <= i < |agents| ==> agents[i].llm == llm && agents[i].allowDelegation
    ensures forall i :: 0 <= i < |agents| ==> (agents[i].tools != [] <==> i == 0)
    ensures agents[0].tools == [ExaAnswerTool]
  {
    [ Agent(ResearcherRole,
            "Conduct thorough research on given topics for the current year 2025",
            "Expert at analyzing and summarizing complex information",
            [ExaAnswerTool], llm, true, true),
      Agent(AnalystRole,
            "Analyze research data and extract key insights and trends",
            "Specialist in data analysis and visualization",
            [], llm, true, true),
      Agent(WriterRole,
            "Compile research findings into a comprehensive, well-structured report",
            "Proficient in writing clear, engaging reports",
            [], llm, true, true) ]
  }

  /** How the framework runs a crew's tasks; the crew is always built sequential. */
  datatype Process = Sequential | Hierarchical

  /** The crew: its agents, fixed at construction, and its task list, assigned before kickoff. */
  class Crew {
    var agents: seq<Agent>
    var tasks: seq<Task>
    const process: Process
    const verbose: bool

    constructor (agents: seq<Agent>, process: Process)
      ensures this.agents == agents && this.tasks == [] && this.process == process && this.verbose
    {
      this.agents := agents;
      this.tasks := [];
      this.process := process;
      this.verbose := true;
    }
  }

  /** Builds the crew for a selection: one LLM handle shared by the three agents, sequential process. */
  method CreateCrew(sel: Selection, secrets: map<string, string>) returns (r: Result<Crew, ConfigError>)
    ensures r.Failure? <==> ResolveLlm(sel, secrets).Failure?
    ensures r.Failure? ==> r.error == ResolveLlm(sel, secrets).error
    ensures r.Success? ==> fresh(r.value) && r.value.tasks == [] && r.value.process == Sequential && r.value.verbose
                           && r.value.agents == AgentPool(ResolveLlm(sel, secrets).value)
  {
    var llm := ResolveLlm(sel, secrets);
    if llm.Failure? {
      return Failure(llm.error);
    }
    var crew := new Crew(AgentPool(llm.value), Sequential);
    return Success(crew);
  }

  /**
    A task: what to do, what to produce, the agent that owns it, the indices (in
    the task list) of the tasks whose output it receives, and an optional output file.
   */
  datatype Task = Task(
    description: string,
    expectedOutput: string,
    agent: Agent,
    context: seq<nat>,
    outputFile: Option<string>)

  /** Indexing the crew's agent list past its end raises an IndexError. */
  datatype TaskError = AgentIndexOutOfRange(index: nat)

  const ReportPath := "output/research_report.md"

  /** The research task's description is the topic between these two fixed texts. */
  const ResearchDescriptionPrefix := "Research the topic: "
  const ResearchDescriptionSuffix := ". Gather comprehensive information, data, and insights from reliable sources."

  const AnalysisDescription := "Analyze the gathered research data. Extract key insights, trends, and metrics."

  /** The writing task's description, with the indentation of its triple-quoted literal. */
  const WritingDescription := @"Compile the research and analysis into a comprehensive report for the year 2025.
        The report must be detailed yet concise, focusing on the most significant and impactful findings.

        Format the output in clean markdown (without code block markers or backticks) using the following structure:

        # Executive Summary
        - Brief overview of the research topic (2-3 sentences)
        - Key highlights and main conclusions
        - Significance of the findings

        # Key Findings
        - Major discoveries and developments
        - Market trends and industry impacts
        - Statistical data and metrics (when available)
        - Technological advancements
        - Challenges and opportunities

        # Analysis
        - Detailed examination of each key finding
        - Comparative analysis with previous developments
        - Industry expert opinions and insights
        - Market implications and business impact

        # Future Implications
        - Short-term impacts (next 6-12 months)
        - Long-term projections
        - Potential disruptions and innovations
        - Emerging trends to watch

        # Recommendations
        - Strategic suggestions for stakeholders
        - Action items and next steps
        - Risk mitigation strategies
        - Investment or focus areas

        # Citations
        - List all sources with titles and URLs
        - Include publication dates when available
        - Prioritize recent and authoritative sources
        - Format as: ""[Title] (URL) - [Publication Date if available]""

        Note: Ensure all information is current and relevant to 2025. Include specific dates,
        numbers, and metrics whenever possible to support findings. All claims should be properly
        cited using the sources discovered during research.
        "

  /** Every context entry of a task names a task earlier in the list. */
  predicate ContextPrecedes(ts: seq<Task>)
  {
    forall i, k :: 0 <= i < |ts| && 0 <= k < |ts[i].context| ==> ts[i].context[k] < i
  }

  /**
    The research, analysis and writing tasks for a topic, owned by the crew's
    first three agents. Fewer than three agents makes the lookup of the first
    missing one fail.
   */
  function ResearchTasks(agents: seq<Agent>, topic: string): (r: Result<seq<Task>, TaskError>)
    ensures r.Success? <==> |agents| >= 3
    ensures r.Failure? ==> r.error == AgentIndexOutOfRange(|agents|)
    ensures r.Success? ==> |r.value| == 3 && ContextPrecedes(r.value)
                           && forall i :: 0 <= i < 3 ==> r.value[i].agent == agents[i]
  {
    if |agents| < 1 then Failure(AgentIndexOutOfRange(0))
    else if |agents| < 2 then Failure(AgentIndexOutOfRange(1))
    else if |agents| < 3 then Failure(AgentIndexOutOfRange(2))
    else
      var research := Task(
        ResearchDescriptionPrefix + topic + ResearchDescriptionSuffix,
        "Raw research data, key findings, and sources on the topic.",
        agents[0], [], None);
      var analysis := Task(
        AnalysisDescription,
        "Analyzed data with insights, trends, and statistical information.",
        agents[1], [0], None);
      var writing := Task(
        WritingDescription,
        "A comprehensive research report in markdown format.",
        agents[2], [0, 1], Some(ReportPath));
      Success([research, analysis, writing])
  }

  /**
    Every task that task i depends on, directly or through other tasks' context.
    `UpstreamExact` shows it is no larger than that.
   */
  function Upstream(ts: seq<Task>, i: nat): (r: set<nat>)
    requires ContextPrecedes(ts) && i < |ts|
    ensures forall j :: j in r ==> j < i
    ensures forall k :: 0 <= k < |ts[i].context| ==> ts[i].context[k] in r
    decreases i, 1
  {
    UpstreamOfAll(ts, ts[i].context, i)
  }

  /** The tasks in `ctx` together with everything they depend on. */
  function UpstreamOfAll(ts: seq<Task>, ctx: seq<nat>, bound: nat): (r: set<nat>)
    requires ContextPrecedes(ts) && bound <= |ts|
    requires forall k :: 0 <= k < |ctx| ==> ctx[k] < bound
    ensures forall j :: j in r ==> j < bound
    ensures forall k :: 0 <= k < |ctx| ==> ctx[k] in r
    decreases bound, 0, |ctx|
  {
    if ctx == [] then {}
    else
      {ctx[0]} + Upstream(ts, ctx[0]) + UpstreamOfAll(ts, ctx[1..], bound)
  }

  /** A set of tasks that holds the context of each of its tasks. */
  predicate ContextClosed(ts: seq<Task>, r: set<nat>)
  {
    forall m, j :: m in r && m < |ts| && j in ts[m].context ==> j in r
  }

  /** Each task of the set is named in `ctx` or in the context of another task of the set. */
  predicate EachReachedFrom(ts: seq<Task>, r: set<nat>, ctx: seq<nat>)
  {
    forall j :: j in r ==> j in ctx || exists m :: m in r && m < |ts| && j in ts[m].context
  }

  /**
    The upstream set of task i is closed under taking context, and each of its
    tasks is in i's context or in the context of another of its tasks. With the
    bounds `Upstream` ensures, this makes it exactly the set of tasks from which a
    chain of context entries leads to i: nothing more, nothing less.
   */
  lemma {:induction false} UpstreamExact(ts: seq<Task>, i: nat)
    requires ContextPrecedes(ts) && i < |ts|
    ensures ContextClosed(ts, Upstream(ts, i))
    ensures EachReachedFrom(ts, Upstream(ts, i), ts[i].context)
    decreases i, 1
  {
    UpstreamOfAllExact(ts, ts[i].context, i);
  }

  /** `UpstreamExact` for the combined upstream set of a context list. */
  lemma {:induction false} UpstreamOfAllExact(ts: seq<Task>, ctx: seq<nat>, bound: nat)
    requires ContextPrecedes(ts) && bound <= |ts|
    requires forall k :: 0 <= k < |ctx| ==> ctx[k] < bound
    ensures ContextClosed(ts, UpstreamOfAll(ts, ctx, bound))
    ensures EachReachedFrom(ts, UpstreamOfAll(ts, ctx, bound), ctx)
    decreases bound, 0, |ctx|
  {
    if ctx != [] {
      var head, rest := Upstream(ts, ctx[0]), UpstreamOfAll(ts, ctx[1..], bound);
      var r := UpstreamOfAll(ts, ctx, bound);
      assert r == {ctx[0]} + head + rest;
      UpstreamExact(ts, ctx[0]);
      UpstreamOfAllExact(ts, ctx[1..], bound);
      forall m, j | m in r && m < |ts| && j in ts[m].context ensures j in r {
        if m == ctx[0] || m in head { assert j in head; } else { assert j in rest; }
      }
      forall j | j in r ensures j in ctx || exists m :: m in r && m < |ts| && j in ts[m].context {
        if j in head && j !in ts[ctx[0]].context {
          var m :| m in head && m < |ts| && j in ts[m].context;
          assert m in r;
        } else if j in head {
          assert ctx[0] in r && ctx[0] < |ts|;
        } else if j in rest && j !in ctx[1..] {
          var m :| m in rest && m < |ts| && j in ts[m].context;
          assert m in r;
        }
      }
    }
  }

  /** Exactly three tasks, owned by agents 0, 1 and 2, with contexts [], [research] and [research, analysis]. */
  lemma ResearchTasksShape(agents: seq<Agent>, topic: string)
    requires |agents| >= 3
    ensures var ts := ResearchTasks(agents, topic).value;
            && |ts| == 3
            && ts[0].agent == agents[0] && ts[1].agent == agents[1] && ts[2].agent == agents[2]
            && ts[0].context == [] && ts[1].context == [0] && ts[2].context == [0, 1]
  {
  }

  /**
    The topic reaches the research task alone: it sits in that task's description
    right after the 20-character prefix, different topics give different research
    tasks, and the analysis and writing tasks do not depend on it.
   */
  lemma ResearchTasksTopic(agents: seq<Agent>, t1: string, t2: string)
    requires |agents| >= 3
    ensures OccursAt(ResearchTasks(agents, t1).value[0].description, |ResearchDescriptionPrefix|, t1)
    ensures ResearchTasks(agents, t1).value[0] == ResearchTasks(agents, t2).value[0] ==> t1 == t2
    ensures ResearchTasks(agents, t1).value[1..] == ResearchTasks(agents, t2).value[1..]
  {
  }

  /** Only the writing task has an output file, and it is the report the fallback reads. */
  lemma OnlyWriterHasOutputFile(agents: seq<Agent>, topic: string)
    requires |agents| >= 3
    ensures var ts := ResearchTasks(agents, topic).value;
            forall i :: 0 <= i < |ts| ==> (ts[i].outputFile.Some? <==> i == 2)
    ensures ResearchTasks(agents, topic).value[2].outputFile == Some(ReportPath)
  {
  }

  /**
    In the built graph analysis depends on research alone, and the writer fans in
    on every earlier task, so running the list in order (the sequential process)
    starts each task after all it depends on.
   */
  lemma ResearchTasksUpstream(agents: seq<Agent>, topic: string)
    requires |agents| >= 3
    ensures var ts := ResearchTasks(agents, topic).value;
            && Upstream(ts, 0) == {}
            && Upstream(ts, 1) == {0}
            && Upstream(ts, 2) == {0, 1}
  {
  }

  // ===========================================================================
  // Part 4. The empty-result fallback (run_research)
  // ===========================================================================

  const NoOutputMessage := "Research completed but no output was generated."

  /** What opening and reading the persisted report at `ReportPath`, the writing task's output file, gives. */
  datatype ReportRead =
    | Contents(text: string)      // the file was read
    | NotFound                    // the file does not exist
    | Unreadable(reason: string)  // any other error: permission, a directory, invalid UTF-8

  /** An error the fallback does not catch and passes to its caller. */
  datatype RunError = ReadFailed(reason: string)

  /** The characters Python's str.strip() removes: those for which str.isspace() holds. */
  predicate IsSpace(c: char)
  {
    var n := c as int;
    (0x09 <= n <= 0x0D) || (0x1C <= n <= 0x20) || n == 0x85 || n == 0xA0 || n == 0x1680
    || (0x2000 <= n <= 0x200A) || n == 0x2028 || n == 0x2029 || n == 0x202F || n == 0x205F || n == 0x3000
  }

  /** A text with no character other than whitespace (the empty text included). */
  predicate IsBlank(s: string)
  {
    forall i :: 0 <= i < |s| ==> IsSpace(s[i])
  }

  /** Removes leading whitespace: the result is the suffix of s that starts at its first non-space. */
  function LStrip(s: string): (r: string)
    ensures |r| <= |s| && r == s[|s| - |r|..]
    ensures forall i :: 0 <= i < |s| - |r| ==> IsSpace(s[i])
    ensures r != "" ==> !IsSpace(r[0])
  {
    if s != "" && IsSpace(s[0]) then LStrip(s[1..]) else s
  }

  /** Removes trailing whitespace: the result is the prefix of s that ends at its last non-space. */
  function RStrip(s: string): (r: string)
    ensures |r| <= |s| && r == s[..|r|]
    ensures forall i :: |r| <= i < |s| ==> IsSpace(s[i])
    ensures r != "" ==> !IsSpace(r[|r| - 1])
  {
    if s != "" && IsSpace(s[|s| - 1]) then RStrip(s[..|s| - 1]) else s
  }

  /** Python's str.strip() with no argument. */
  function Strip(s: string): string
  {
    RStrip(LStrip(s))
  }

  /** A text strips to nothing exactly when it is blank. */
  lemma StripEmptyIffBlank(s: string)
    ensures Strip(s) == "" <==> IsBlank(s)
  {
  }

  /**
    The value run_research returns for the kickoff result and the report read:
    a non-blank result is kept; a blank one is replaced by the report's contents,
    or by a fixed message when there is no report; other read errors propagate.
   */
  function FinalResult(kickoff: string, report: ReportRead): (r: Result<string, RunError>)
    ensures !IsBlank(kickoff) ==> r == Success(kickoff)
    ensures IsBlank(kickoff) && report.Contents? ==> r == Success(report.text)
    ensures IsBlank(kickoff) && report.NotFound? ==> r == Success(NoOutputMessage)
    ensures IsBlank(kickoff) && report.Unreadable? ==> r == Failure(ReadFailed(report.reason))
  {
    StripEmptyIffBlank(kickoff);
    if kickoff == "" || Strip(kickoff) == "" then
      match report
      case Contents(text) => Success(text)
      case NotFound => Success(NoOutputMessage)
      case Unreadable(reason) => Failure(ReadFailed(reason))
    else
      Success(kickoff)
  }

  /** The fixed message is not blank, so it can never be mistaken for an empty result. */
  lemma NoOutputMessageNotBlank()
    ensures !IsBlank(NoOutputMessage)
  {
    assert !IsSpace(NoOutputMessage[|NoOutputMessage| - 1]);
  }

  /** A successful run returns a blank text only when the crew's result was blank and the report itself is blank. */
  lemma BlankOnlyFromBlankReport(kickoff: string, report: ReportRead)
    requires FinalResult(kickoff, report).Success? && IsBlank(FinalResult(kickoff, report).value)
    ensures IsBlank(kickoff) && report.Contents? && IsBlank(report.text)
  {
    NoOutputMessageNotBlank();
  }

  /**
    Assigns the tasks to the crew, takes the kickoff result and, if it is blank,
    falls back to the persisted report.
   */
  method RunResearch(crew: Crew, tasks: seq<Task>, kickoff: string, report: ReportRead)
    returns (result: Result<string, RunError>)
    modifies crew`tasks
    ensures crew.tasks == tasks
    ensures result == FinalResult(kickoff, report)
  {
    crew.tasks := tasks;
    var text := kickoff;
    if text == "" || Strip(text) == "" {
      match report
      case Contents(contents) =>
        text := contents;
      case NotFound =>
        text := NoOutputMessage;
      case Unreadable(reason) =>
        return Failure(ReadFailed(reason));
    }
    return Success(text);
  }
}
