# Research assistant pipeline rules, in Dafny

The repository is a Streamlit research assistant. It asks a crew of three agents to research a topic, analyse what was found and write a report. The crew runs on an LLM provider the user picks. Almost everything is delegated to the agent framework, the answer API, the LLM client and the UI. This project models the rules of `src/components/researcher.py` that the repository states itself. It has one module, `Researcher` (`researcher.dfy`), in four parts, plus a `Wrappers` module (`wrappers.dfy`) for `Option` and `Result`.

1. **LLM configuration.** `create_crew` turns a `(provider, model)` selection and the secret store into an LLM handle. The handle holds a prefixed model id and either an API key or the local Ollama base URL. `"GROQ"` and `"Ollama"` pass the model through after their prefix. Every other provider string takes the OpenAI branch. That branch translates `GPT-3.5` and `GPT-4`, keeps every other name, and turns an empty name into `o1`. The secret store is a `map<string, string>` input. A missing credential is the `KeyError` the source raises, modelled as `Failure(MissingSecret(name))`.
2. **Answer-tool output.** `EXAAnswerTool._run` turns the parsed answer response into the text the researcher agent sees. `RunExaAnswerTool` is the loop that appends one line per citation. It is proved equal to the function `ToolOutput`. The lemmas fix the header, the "no citations" case and the place of each citation line.
3. **Agents and tasks.** `AgentPool` builds the three agent descriptors, which share one LLM handle. `CreateCrew` builds the sequential crew as a `Crew` object. `ResearchTasks` builds the research, analysis and writing tasks. Each task holds its owning agent, its context as indices into the task list, and its optional output file. `Upstream` computes every task a task depends on, directly or transitively. Its contract says each of them comes earlier in the list, so the sequential process runs them first.
4. **Empty-result fallback.** `run_research` assigns the tasks to the crew. It then replaces a blank kickoff result with the persisted report. If the report file does not exist, it uses a fixed message instead. `Strip` models Python's `str.strip()` over exactly the characters `str.isspace()` accepts. `FinalResult` is specified through the independent predicate `IsBlank`.

The `create_crew` docstring (src/components/researcher.py:63) lists only "OpenAI", "GROQ" and "Ollama" as providers. But the `else` at line 87 sends every string other than "GROQ" and "Ollama" to the OpenAI branch, and the model does the same.

Two more facts about the code that a reader might not expect:
- The writing task's context is the research and analysis tasks together (line 219), so the graph fans in at the writer. It is not a plain chain.
- A blank result with a report file that exists but is blank returns that blank text (lines 242-245); it is not a failure. A missing file returns the fixed message (line 247). Only read errors other than `FileNotFoundError` propagate; the model calls these `Unreadable`.

## Model

| member | source | states |
|---|---|---|
| `Researcher.BackendOf` | src/components/researcher.py:77-87 | only the exact strings "GROQ" and "Ollama" select their branches; every other provider string takes the OpenAI branch |
| `Researcher.OpenAIModelName` | src/components/researcher.py:89-101 | the OpenAI model name is never empty |
| `Researcher.ResolveLlm` | src/components/researcher.py:74-105 | resolution fails exactly when the branch needs a credential (GROQ_API_KEY or OPENAI_API_KEY) that the secret store lacks, and the error names that credential; a resolved handle has an API key exactly when it has no base URL |
| `Researcher.GroqPassThrough` | src/components/researcher.py:77-81 | for "GROQ" the id is "groq/" + model exactly, with no mapping and no default, keyed by GROQ_API_KEY's value |
| `Researcher.OllamaPassThrough` | src/components/researcher.py:82-86 | for "Ollama" the id is "ollama/" + model, the base URL is http://localhost:11434, there is no API key, and it never fails |
| `Researcher.OtherProvidersUseOpenAI` | src/components/researcher.py:87-105 | any other provider gives "openai/" + the mapped model name, keyed by OPENAI_API_KEY's value |
| `Researcher.OpenAIModelNameByTable` | src/components/researcher.py:88-101 | the mapping agrees with the table {GPT-3.5 to gpt-3.5-turbo, GPT-4 to gpt-4}, with "o1" for an empty name and the identity otherwise |
| `Researcher.OpenAIPassThrough` | src/components/researcher.py:93-101 | o1, o1-mini, o1-preview and every other non-empty name outside the table pass through unchanged |
| `Researcher.OpenAIModelNameIdempotent` | src/components/researcher.py:89-101 | mapping an already-mapped name changes nothing |
| `Researcher.OpenAIIdNeverBare` | src/components/researcher.py:99-105 | in the OpenAI branch the id is never "openai/"; an empty model gives "openai/o1" |
| `Researcher.ModelIdRoundTrip` | src/components/researcher.py:77-105 | a resolved id is the branch's prefix plus the model name, and it splits back into the branch and that model name |
| `Researcher.ToolOutput` | src/components/researcher.py:44-53 | the output always begins with "Answer: " + answer + "\n\n", and it is exactly that prefix (no "Citations:" header) if and only if there are no citations |
| `Researcher.CitationLinesAppend` | src/components/researcher.py:50-51 | rendering two citation lists one after the other renders their concatenation |
| `Researcher.CitationLinesSnoc` | src/components/researcher.py:50-51 | one more loop iteration appends exactly that citation's line |
| `Researcher.CitationLineAt` | src/components/researcher.py:50-51 | the i-th citation's line occurs right after the lines of citations 0..i-1 |
| `Researcher.ToolOutputWithCitations` | src/components/researcher.py:47-53 | with n >= 1 citations the output is the prefix, "Citations:\n", then the citation lines |
| `Researcher.ToolOutputCitationOrder` | src/components/researcher.py:48-53 | every citation's "- title (url)\n" line appears in the output at the position given by the citations before it, in input order |
| `Researcher.OneCitationExample` | src/components/researcher.py:47-51 | one citation {T, U} yields the line "- T (U)" after the two headers |
| `Researcher.RunExaAnswerTool` | src/components/researcher.py:44-53 | the loop that appends one line per citation produces exactly `ToolOutput` |
| `Researcher.AgentPool` | src/components/researcher.py:107-136 | three agents with roles Research Analyst, Data Analyst and Content Writer; all share the given LLM handle and allow delegation; only the first holds a tool, the answer tool |
| `Researcher.Crew.constructor` | src/components/researcher.py:138-142 | a new crew has the given agents, the given process, no tasks, and verbose on |
| `Researcher.CreateCrew` | src/components/researcher.py:58-143 | crew creation fails exactly when LLM resolution fails; otherwise the crew is new, sequential and verbose, has no tasks yet, and its agents are the pool over the resolved handle |
| `Researcher.ResearchTasks` | src/components/researcher.py:148-223 | with at least three agents there are exactly three tasks, owned by agents 0, 1 and 2, whose contexts only name earlier tasks; with fewer, the lookup of the first missing agent index fails |
| `Researcher.Upstream` | src/components/researcher.py:164-221 | bounds: a task's upstream set contains its whole direct context, and every task in it has a smaller index, so the sequential process starts it earlier |
| `Researcher.UpstreamExact` | src/components/researcher.py:164-221 | the upstream set is closed under taking context, and each of its tasks is in the task's own context or in the context of another of its tasks; with the bounds, it is exactly the set of tasks reachable through context |
| `Researcher.UpstreamOfAllExact` | src/components/researcher.py:219 | the same for the combined upstream set of a context list such as the writer's [research, analysis] |
| `Researcher.ResearchTasksTopic` | src/components/researcher.py:158-162 | the topic occurs in the research task's description right after "Research the topic: "; different topics give different research tasks; the analysis and writing tasks are the same for every topic |
| `Researcher.ResearchTasksShape` | src/components/researcher.py:158-223 | the contexts are [], [research] and [research, analysis], and the owners are agents 0, 1 and 2 |
| `Researcher.OnlyWriterHasOutputFile` | src/components/researcher.py:171-221 | only the writing task has an output file, and it is "output/research_report.md", the file the fallback reads |
| `Researcher.ResearchTasksUpstream` | src/components/researcher.py:164-221 | analysis depends on research alone; the writer depends on both earlier tasks (fan-in); research depends on nothing |
| `Researcher.LStrip` | src/components/researcher.py:242 | the result is the suffix of the input starting at its first non-whitespace character; everything removed is whitespace |
| `Researcher.RStrip` | src/components/researcher.py:242 | the result is the prefix of the input ending at its last non-whitespace character; everything removed is whitespace |
| `Researcher.StripEmptyIffBlank` | src/components/researcher.py:242 | a text strips to "" if and only if every character of it is whitespace |
| `Researcher.FinalResult` | src/components/researcher.py:241-249 | a non-blank result is kept; a blank one gives the report's contents, or "Research completed but no output was generated." when the file does not exist; any other read error propagates |
| `Researcher.NoOutputMessageNotBlank` | src/components/researcher.py:247 | the fixed message is not blank |
| `Researcher.BlankOnlyFromBlankReport` | src/components/researcher.py:241-249 | a successful run returns blank text only when the kickoff result was blank and the report file was read and is itself blank |
| `Researcher.RunResearch` | src/components/researcher.py:228-249 | the crew's task list becomes the given tasks, its agents are unchanged, and the returned value is `FinalResult` of the kickoff result and the report read |

## Left out

- The HTTP POST to the answer endpoint, `raise_for_status`, the printed error logs and the `EXA_API_KEY` header (src/components/researcher.py:22-42) are network I/O and are not modelled. The parsed JSON response is an input. So the model does not capture a non-2xx answer-endpoint response propagating as an error.
- A response without "answer", or a citation without "title" or "url", raises `KeyError` in the source. The model takes these fields as present strings. Non-string JSON values, which the f-strings render through `str()`, are not modelled.
- A "citations" key that holds JSON null behaves like an absent key: neither prints a "Citations:" header. Both are `None`.
- Building the crew: constructing the `LLM`, `Agent` and `Crew` objects of the agent framework (src/components/researcher.py:78-142) is modelled only as the records those calls are given.
- `crew.kickoff()`, task execution, delegation and verbose logging belong to the external engine. The kickoff result is an input string.
- The report file read (src/components/researcher.py:244) is an input `ReportRead`. It is the file's contents, "not found", or another error. Real file I/O is not modelled.
- `RunResearch`: when the kickoff result is not blank, the source returns the framework's result object, not a string. The model returns the string form of that result, and it tests emptiness on that string.
- The `selection` dictionary lacking "provider" or "model" raises `KeyError`. The model's `Selection` always has both.
- `streamlit_app.py` is not part of this model. That covers page layout, session history, voice input, charts, number extraction (floating point), PDF export and timestamps. `src/components/sidebar.py` and `src/utils/output_handler.py` are not part of this model either.
