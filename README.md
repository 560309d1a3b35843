# sad-instruct core, modelled in Dafny

This project models the data-preparation core of sad-instruct. That core is the code that turns
the 3DSSG scene-graph dataset and human feedback into instruction-tuning data for
language models:

- **Prompt templates** (`prompting/prompt.py`, `prompting/prompt_builder.py`). A `Prompt`
  reads its `$name` placeholders from a template. It accepts values only for those names and
  builds the text by replacing them one after another. It also takes an image URL or an image
  file as a data URI. `PromptBuilder.from_cfg` reads a config record, normalises it and
  makes a `Prompt`.
- **Scene graphs** (`prompting/scene_graph.py`). A graph is built from object and relation
  records, with spaces hyphenated and trivial "same" relations skipped. It is rendered to the
  text grammar `obj-id:[a, b]; rel-n:(s, p, o)` and parsed back from it. The parser includes
  the regular expression `\((.*), (.*), (.*)\)`, written out as Python's backtracking
  matcher runs it.
- **3DSSG loading** (`src/utils/ssg.py`). Each scan's objects, the instance-id and label
  maps, and the relations that remain once the ignored ones are dropped. A failed lookup
  raises `KeyError`.
- **Pruning** (`src/4_update_pruned_graphs.py`). Feedback overrides the object list of each
  scenario it covers. Then, per scenario, the graph keeps only the named objects and the
  relations between two of them.
- **Instruction samples and Gemma CSV** (`src/7_create_sid_instruct.py`,
  `data_preparation/ssg/prepare_ft_data_gemma.py`). Numbered instruction samples, the trimmed
  conversation sample, and the two converters to the CSV that Gemma fine-tuning reads.

Python dicts are modelled as insertion-ordered `Dicts.Dict`, whose `Put` keeps an existing
key in place. Python `str` operations (`split`, `replace`, `join`, `strip`) are written out
in `Text`. An exception that the modelled code raises on well-formed parsed data is an
`Err` of a `Result`; the fields that parsed records must carry are listed under "Left out".
Reading files, existence
checks and base64 encoding are I/O: their outcomes are parameters.

Behaviours of the code that are easy to miss:

- `parse` does not create objects for relationship endpoints that were never declared
  (`SceneGraphRoundTrip.ParseKeepsUnknownEndpoints`).
- A graph without relationships renders with a trailing `"; "` (`SceneGraphs.Render`).
- An object declaration must split on `:` into exactly two parts.
- `[]` reads back as the attribute list `[""]`
  (`SceneGraphRoundTrip.EmptyAttributesReadBackAsEmptyString`).
- `build` replaces placeholders one after another with plain `str.replace`. A placeholder whose
  name extends another's, as `$ab` extends `$a`, is spoiled when the shorter one goes first,
  so the result depends on the `set` order of the names (`Prompting.PrefixNameReplacedFirst`).

## Model

| member | source | states |
|---|---|---|
| Prompting.PlaceholderNamesAreDollarRuns | prompting/prompt.py:23 | a name is a parameter of the template exactly when some `$` in it is followed by that name as a maximal run of word characters |
| Prompting.ReadParams | prompting/prompt.py:21-24 | the parameters are exactly the placeholder names, each listed once in some iteration order of the set, all unset |
| Prompting.Prompt.constructor | prompting/prompt.py:8-12 | a new prompt keeps its template and role, declares every placeholder name unset, has no image and does not ignore missing values |
| Prompting.Prompt.SetInitial | prompting/prompt.py:14-16 | passing the initial values through `set` in dict order raises iff some initial name is not a placeholder, naming the first such in order; otherwise every placeholder holds its initial value or stays unset; the order of the placeholder keys never changes |
| Prompting.NewPrompt | prompting/prompt.py:8-19 | `Prompt(template, role, parameters)` raises the unknown-parameter error iff an initial name is not a placeholder (the first one in dict order); otherwise it gives a fresh prompt with that template and role, no image, missing values not ignored, and every placeholder holding its initial value or unset |
| Prompting.Prompt.Set | prompting/prompt.py:54-59 | an undeclared name raises and changes nothing; a declared one gets the value, and no key is added, removed or moved |
| Prompting.Prompt.Get | prompting/prompt.py:61-62 | a declared name gives its value, set or not; any other name gives the default |
| Prompting.Prompt.Build | prompting/prompt.py:64-76 | the prompt is the template with the parameters substituted one by one in dict order; with no parameters it is the template itself |
| Prompting.BuildFailsIff | prompting/prompt.py:66-74 | building raises iff missing values are not ignored and some parameter is unset, and the error then names the first unset parameter in dict order |
| Prompting.IgnoringMissingSkipsUnset | prompting/prompt.py:68-74 | when missing values are ignored, building never raises and equals substituting only the set values |
| Prompting.SubstitutionIsSequential | prompting/prompt.py:66-74 | a value holding `$b` is expanded by a later replacement of `b` but not by an earlier one, so parameter order shows in the output |
| Prompting.PrefixNameReplacedFirst | prompting/prompt.py:66-74 | with template `"$a $ab"`, replacing `a` first also rewrites the start of `$ab` and gives `"X Xb"`, while replacing `ab` first gives `"X Y"`: a placeholder named by an extension of another is spoiled by the shorter one's replacement |
| Prompting.Prompt.ToString | prompting/prompt.py:78-79 | `str(prompt)` is what `build` gives, including its error |
| Prompting.ImageUrlValue | prompting/prompt.py:37-52 | it accepts exactly http(s) URLs, kept as given, and existing files whose extension is .jpg, .jpeg or .png in any case; a path that is not a file raises the invalid-URL error, a file with any other extension raises the invalid-format error, and no other error is raised |
| Prompting.ImageUrlDataUri | prompting/prompt.py:46-49 | an accepted file becomes `data:image/` plus a MIME type and the base64 text; the type is JPEG exactly for .jpg/.jpeg and PNG exactly for .png |
| Prompting.ExtensionShape | prompting/prompt.py:42 | the extension `splitext` gives is empty, or a dot followed by a tail of the path with no dot or slash |
| Prompting.HiddenFileHasNoExtension | prompting/prompt.py:40-44 | a dot-file named `.png` has no extension and is refused with the format error |
| Prompting.Prompt.SetImageUrl | prompting/prompt.py:30-52 | an accepted URL or file is stored as its value; otherwise the setter raises that error and keeps the old value |
| PromptBuilding.ReadConfig | prompting/prompt_builder.py:9-26 | a path that is not a file raises; otherwise the template is the stripped config template or '' and it raises iff that is empty; the role defaults to 'user'; the parameters are the union of config and caller parameters, the caller's winning on a shared key |
| PromptBuilding.ReadConfigKeyOrder | prompting/prompt_builder.py:21-22 | the merged parameters list the config's keys first, in their order, then the caller's keys that the config lacks, in the caller's order |
| PromptBuilding.FromCfg | prompting/prompt_builder.py:9-29 | it raises the config error, or the unknown-parameter error iff a merged parameter is not a placeholder of the template, naming a merged key that is not a placeholder and is the first such in the merged order; otherwise it gives a prompt holding the template, the role and the merged values |
| SceneGraphs.Render | prompting/scene_graph.py:76-79 | a graph without relationships renders ending in "; ", and one without objects starting with it |
| SceneGraphs.JsonView | prompting/scene_graph.py:70-74 | `to_json` gives the same object ids in the same order, each with its attribute list, and the relationship triples in order |
| SceneGraphs.SceneGraph.constructor | prompting/scene_graph.py:29-34 | the new graph is the graph built from the object and relation records |
| SceneGraphs.SceneGraph.ParseArgs | prompting/scene_graph.py:36-62 | the object records are added, then the relation records, to the graph as it was |
| SceneGraphs.SceneGraph.AddObjectRecordLoop | prompting/scene_graph.py:37-44 | each object record stores the object under its hyphenated label, in order |
| SceneGraphs.SceneGraph.RecordAttributes | prompting/scene_graph.py:40-43 | the attribute list is every group's attributes, hyphenated, group after group |
| SceneGraphs.SceneGraph.AddRelationRecordLoop | prompting/scene_graph.py:45-62 | each relation record is handled in turn, as `AddRelationRecords` specifies |
| SceneGraphs.SceneGraph.AddObject | prompting/scene_graph.py:64-65 | the object is stored under its id; a repeated id replaces the value in its old position |
| SceneGraphs.SceneGraph.AddRelationship | prompting/scene_graph.py:67-68 | the relationship is appended |
| SceneGraphs.SceneGraph.ToJson | prompting/scene_graph.py:70-74 | gives `JsonView` of the graph |
| SceneGraphs.SceneGraph.Repr | prompting/scene_graph.py:76-79 | gives `Render` of the graph |
| SceneGraphs.RecordRelations | prompting/scene_graph.py:45-62 | the relation loop keeps the earlier relationships in front, then appends only relationships from records whose predicate lacks "same": each carries its record index, hyphenated endpoints and the predicate as given, in increasing index order |
| SceneGraphs.RecordRelationsComplete | prompting/scene_graph.py:46-62 | every record whose predicate lacks "same" gives a relationship |
| SceneGraphs.FromRecordsEndpointsKnown | prompting/scene_graph.py:55-59 | in a graph built from records, every relationship endpoint names an object |
| SceneGraphs.FromRecordsHyphenated | prompting/scene_graph.py:39-49 | building from records leaves no space in any object id, attribute or endpoint |
| SceneGraphs.ObjectRecordsKeys | prompting/scene_graph.py:37-44 | the objects built from records are one per distinct hyphenated label |
| SceneGraphs.ObjectRecordsLastWins | prompting/scene_graph.py:37-44 | a label given by several records holds the object of the last one |
| SceneGraphs.Declarations | prompting/scene_graph.py:156-164 | each collected declaration starts with its prefix |
| SceneGraphs.ParseObjectDecl | prompting/scene_graph.py:168-177 | an object declaration is dropped exactly when it does not split on ':' into two parts; a kept one always has at least one attribute |
| SceneGraphs.ParseRelationDeclDrops | prompting/scene_graph.py:181-193 | a relationship declaration is dropped exactly when it does not split into two parts or its second part has no match of the pattern |
| SceneGraphs.ParseGraph | prompting/scene_graph.py:154-202 | the parsed graph stores each object under its own id, and every relationship carries its id as text |
| SceneGraphs.SceneGraph.Parse | prompting/scene_graph.py:153-202 | `parse` gives a fresh graph equal to `ParseGraph` of the sentence |
| SceneGraphs.SceneGraph.CollectObjects | prompting/scene_graph.py:167-177 | the object loop fills the dict `ParsedObjects` describes |
| SceneGraphs.SceneGraph.CollectRelations | prompting/scene_graph.py:180-193 | the relationship loop fills the list `ParsedRelations` describes |
| SceneGraphs.SceneGraph.AddParsedObjects | prompting/scene_graph.py:196-198 | each parsed entry is stored in dict order |
| SceneGraphs.SceneGraph.AddParsedRelations | prompting/scene_graph.py:199-200 | each parsed relationship is appended in order |
| TripleRegex.Search | prompting/scene_graph.py:186 | the search finds a match iff one exists; the match it finds starts leftmost, and at that start it has the greedy group ends backtracking tries first |
| SceneGraphRoundTrip.RoundTrip | prompting/scene_graph.py:154-202 | parsing the rendering of a graph with plain names gives back its objects exactly (ids, order, attributes) and its relationships in order, each id now the text it rendered as |
| SceneGraphRoundTrip.LabelledRoundTrip | prompting/scene_graph.py:154-202 | a plain graph whose relationship ids are text reads back as itself |
| SceneGraphRoundTrip.JsonRoundTrip | prompting/scene_graph.py:70-74 | `to_json` of the parsed rendering equals `to_json` of the graph |
| SceneGraphRoundTrip.ParseKeepsUnknownEndpoints | prompting/scene_graph.py:196-200 | `parse` keeps a relationship whose endpoints were never declared and creates no object for them |
| SceneGraphRoundTrip.EmptyAttributesReadBackAsEmptyString | prompting/scene_graph.py:171-174 | an object without attributes reads back with the attribute list `[""]` |
| Ssg.LoadObjects | src/utils/ssg.py:5-29 | the loop gives the scan index, the per-scan id maps and the label map that the dict comprehensions define |
| Ssg.ScanObjectsOfScan | src/utils/ssg.py:12 | every scan is indexed with the object list of its last listing |
| Ssg.Id2GlobalOfScan | src/utils/ssg.py:22-23 | `id2global[scan]` maps exactly the instance ids of that scan's last listing |
| Ssg.Id2GlobalOfObject | src/utils/ssg.py:22-23 | an instance id maps to the global id of the last object carrying it |
| Ssg.Global2LabelKeys | src/utils/ssg.py:26-27 | `global2label` holds exactly the global ids of all objects of all scans |
| Ssg.Global2LabelLastWins | src/utils/ssg.py:26-27 | a global id has the label of the last object, over all scans, that carries it |
| Ssg.Resolve | src/utils/ssg.py:54-78 | a row's lookups succeed iff every key is present; the relation then has global ids, `label-instanceid` names, and its relation id and name |
| Ssg.ScanKeptOk | src/utils/ssg.py:52-69 | a scan loads iff every row resolves, ignored or not |
| Ssg.ScanKeptFirstError | src/utils/ssg.py:52-69 | the error a scan raises is that of its first row with a missing key |
| Ssg.ScanKeptMembers | src/utils/ssg.py:52-78 | a relation is kept iff it comes from a row that resolves and whose name is not on the ignore list |
| Ssg.CollectScan | src/utils/ssg.py:51-78 | the inner loop gives the kept relations of a scan, or its first `KeyError` |
| Ssg.LoadRelationships | src/utils/ssg.py:32-82 | the loop gives `scan_relations`, or the first `KeyError` |
| Ssg.LoadedOk | src/utils/ssg.py:46-80 | loading raises iff some row of some scan has a missing key |
| Ssg.LoadedKeys | src/utils/ssg.py:80 | every listed scan gets an entry, even an empty one, and no other key appears |
| Ssg.LoadedOfScan | src/utils/ssg.py:80 | a scan's entry is the kept relations of its last listing |
| Ssg.Load3dssg | src/utils/ssg.py:85-88 | the scan objects and the loaded relations, built from the object maps |
| UpdatePrunedGraphs.FeedbackIndexLastWins | src/4_update_pruned_graphs.py:42 | the feedback index holds the last item given for a (scan, scenario) pair |
| UpdatePrunedGraphs.SelectedLabelsMembers | src/4_update_pruned_graphs.py:63 | a label is in the list iff some selected feedback object carries it |
| UpdatePrunedGraphs.SelectedLabelsAppend | src/4_update_pruned_graphs.py:63 | the selected labels keep the feedback order |
| UpdatePrunedGraphs.RefinedScenario | src/4_update_pruned_graphs.py:58-65 | a scenario with feedback gets the selected labels as its objects; one without feedback is unchanged; the description never changes |
| UpdatePrunedGraphs.RefineScan | src/4_update_pruned_graphs.py:57-66 | one scan's scenarios are refined in order, with `seen` counting them all and `updated` those with feedback |
| UpdatePrunedGraphs.UpdatedAtMostTotal | src/4_update_pruned_graphs.py:62-66 | `num_updated <= total_scenarios` |
| UpdatePrunedGraphs.RefinedIndex | src/4_update_pruned_graphs.py:67-70 | `scenario_data` lists the index's scans in the same order, each with its refined scenarios |
| UpdatePrunedGraphs.MergeFeedback | src/4_update_pruned_graphs.py:47-70 | the merge gives `scenario_data` with the same scans in order and each scan's refined scenarios; the counters count all scenarios and those with feedback |
| UpdatePrunedGraphs.ScenarioObjectsMembers | src/4_update_pruned_graphs.py:94 | an object is kept iff it is one of the scan's objects and its label is named by the scenario |
| UpdatePrunedGraphs.ScenarioRelationsMembers | src/4_update_pruned_graphs.py:98-101 | a relation is kept iff it is one of the scan's relations and both endpoints are scenario objects |
| UpdatePrunedGraphs.FilterRelations | src/4_update_pruned_graphs.py:98-101 | the loop collects exactly `ScenarioRelations`, in scan order |
| UpdatePrunedGraphs.ScenarioSampleFacts | src/4_update_pruned_graphs.py:108-121 | a record names its scan and scenario, and holds exactly the scenario's objects and the relations between them |
| UpdatePrunedGraphs.PruneScan | src/4_update_pruned_graphs.py:88-121 | one record per scenario, relations or not, with `skipped` counting the records without relations |
| UpdatePrunedGraphs.PrunedSamplesCount | src/4_update_pruned_graphs.py:80-121 | there are as many records as scenarios over the scans with objects |
| UpdatePrunedGraphs.Prune | src/4_update_pruned_graphs.py:76-121 | it raises `KeyError` for the first scan with objects but no scenario entry; otherwise it gives the records of every scan in turn, with `num_processed` equal to their number and `num_skipped` counting those without relations |
| UpdatePrunedGraphs.Run | src/4_update_pruned_graphs.py:19-142 | a load error propagates; otherwise the counters are those of the merge, a scan without a scenario entry raises, no record at all raises the `IndexError` of `data[0]`, and otherwise the records are those of `Prune` |
| SidInstruct.CreateSampleDropsExtra | src/7_create_sid_instruct.py:13-19 | a sample depends only on the roles and contents of the messages, in order |
| SidInstruct.NumberInstructions | src/7_create_sid_instruct.py:117-119 | the loop builds the numbered text `Numbered` defines |
| SidInstruct.NumberedIsJoin | src/7_create_sid_instruct.py:117-119 | non-empty numbered text is its step lines `"{i + 1}. {instruction}"` joined by newlines, plus a final newline |
| SidInstruct.NumberedLines | src/7_create_sid_instruct.py:117-119 | splitting the numbered text on newlines gives back the step lines and an empty last line |
| SidInstruct.CreateInstructionSample | src/7_create_sid_instruct.py:115-144 | two samples: a steps question about the scene and a how-to question about the pruned graph, both answered with the numbered text, which is also returned |
| SidInstruct.Trimmed | src/7_create_sid_instruct.py:270-288 | the first message is dropped, and the last too when it is from the user; the summary request and the steps as the answer are appended |
| SidInstruct.TrimmedEnds | src/7_create_sid_instruct.py:279-288 | the trimmed conversation ends with the summary request and then the steps |
| SidInstruct.TrimConversation | src/7_create_sid_instruct.py:270-288 | it raises `IndexError` iff the conversation has at most one message; otherwise it gives `Trimmed` |
| SidInstruct.ScenarioSamples | src/7_create_sid_instruct.py:258-290 | a scenario's samples are the two instruction samples and the trimmed conversation, all answered with the same numbered text; the first asks for the steps over the full graph, the second asks how over the pruned graph, and the third is the trimmed conversation; they raise iff the conversation has at most one message |
| SidInstruct.RecordText | src/7_create_sid_instruct.py:183-193 | the inner loop builds a record's field as `Record` defines it |
| SidInstruct.Jsonl2Gemma | src/7_create_sid_instruct.py:168-200 | a path that does not exist or does not end in .jsonl raises; otherwise the CSV text is the header, then one record per line |
| SidInstruct.GemmaCsvHeader | src/7_create_sid_instruct.py:180 | the CSV text starts with the `prompt` header line |
| SidInstruct.UnescapeTurns | src/7_create_sid_instruct.py:184-192 | the quoted turns read back as the raw turns |
| SidInstruct.RecordUnquotes | src/7_create_sid_instruct.py:183-194 | a record is one quoted CSV field, and unquoting it gives `<bos>`, the turns with their text as written, and `<eos>` |
| Chat.GemmaRole | data_preparation/ssg/prepare_ft_data_gemma.py:36-38 | the role is 'user' iff the message role is 'user', and 'model' otherwise |
| Chat.UnescapeEscaped | data_preparation/ssg/prepare_ft_data_gemma.py:34 | doubled quotes read back as the text, whatever follows it |
| Chat.EscapedReadsBack | data_preparation/ssg/prepare_ft_data_gemma.py:34 | doubling the quotes is undone by reading the field back |
| Chat.UnescapeTurnBody | data_preparation/ssg/prepare_ft_data_gemma.py:34-40 | a turn with escaped text reads back as the turn with the text as written |
| GptToGemma.RecordLines | data_preparation/ssg/prepare_ft_data_gemma.py:31-40 | the inner loop builds a record's lines as `Lines` defines them |
| GptToGemma.Gpt2Gemma | data_preparation/ssg/prepare_ft_data_gemma.py:17-47 | a path that does not exist or does not end in .jsonl raises; otherwise the CSV text is `Converted` of the records |
| GptToGemma.ConvertedHeader | data_preparation/ssg/prepare_ft_data_gemma.py:28 | the CSV text starts with the `prompt` header line |
| GptToGemma.LineUnquotes | data_preparation/ssg/prepare_ft_data_gemma.py:33-40 | each message line is a quoted field and a newline, and the field reads back as the turn with its text as written |
| GptToGemma.BlockOpensWithTurn | data_preparation/ssg/prepare_ft_data_gemma.py:40-41 | a record with messages opens with a quoted start of turn, with no `<bos>` |
| GptToGemma.BlockEnds | data_preparation/ssg/prepare_ft_data_gemma.py:41 | every record ends with an empty line, right after the closing quote of its last message |

## Left out

- File reading and writing, `json.load` and `json.dumps`, `os.makedirs`, `tqdm` and every
  `print`. The models start from the parsed data and return the text or records that would
  be written.
- `os.path.exists` and `os.path.isfile` are boolean parameters. The base64 encoding of an
  image file is a string parameter.
- `eval` of a config file: its result is the `loaded` parameter of `PromptBuilding.ReadConfig`.
- `\w` and `str.lower()` cover ASCII only. Unicode word characters and case folding are not
  modelled.
- Values are represented by their `str()` text, so templates and values that are not strings
  are not modelled.
- Prompting.ReadParams: the order of the parameters is the iteration order of a Python
  `set`, which depends on string hashing. The model only says it is some order listing each
  name once.
- Parsed records are taken to carry every field the code reads. The `KeyError` of a missing
  field is not modelled: `m['role']` and `m['content']` of a message, `d['messages']`,
  `item['scan']`, and `o['selected']` or `o['label']` of a feedback object.
- The default arguments of `Prompt` (`role='user'`, `parameters={}`) are not a separate
  member. A call that relies on them is `Prompting.NewPrompt(template, "user", Dicts.Empty())`.
- Prompting.NewPrompt: `ignore_missing` is set after the loop over the initial values. This
  cannot be observed, because that loop never reads it.
- PromptBuilding.ReadConfig: `params.update(parameters)` also mutates the config's own dict
  in place. The model builds the merged dict as a new value, so aliasing of that dict is not
  captured.
- `SceneGraph.visualize`: drawing with networkx and matplotlib is out of scope.
- SceneGraphRoundTrip.RoundTrip: it holds only for graphs whose names are plain. That means
  no `;`, `:`, `,`, brackets, parentheses or newlines, no surrounding whitespace, no
  `obj-`/`rel-` inside ids, and at least one attribute per object. Other graphs do not
  round-trip.
- JSON ids and labels enter as their `str()` text. Numeric and string ids are not told apart.
- In `src/7_create_sid_instruct.py`, the orchestration of `create_sid_instruct` is not
  modelled:
  - its file checks with `assert`;
  - the random 80/20 train/test split;
  - the `KeyError` of `ssg[scan_id]` and `scenarios[(scan_id, scenario)]`;
  - the loop over the instructions dict;
  - `count_tokens`, which uses tiktoken.

  The per-scenario body is modelled by `SidInstruct.ScenarioSamples`, with the instructions
  already decoded from JSON.
- `create_scene_graph_pruning` and `create_scenario_objects`: their only call sites in
  `create_sid_instruct` are commented out.
- SidInstruct.TrimConversation: `.copy()` makes the trimming leave the caller's list alone.
  The model works on values, so the copy is implicit and aliasing is not captured.
- The sample shown by `src/4_update_pruned_graphs.py` (lines 126-136) is printing only. Its
  `data[0]` lookup, which raises when there is no record, is modelled in
  `UpdatePrunedGraphs.Run`.
