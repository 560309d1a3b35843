/**
 * Assembling the SID instruction data set: chat samples built from the
 * numbered instructions of a scenario and from its trimmed conversation,
 * and their conversion to the CSV that Gemma fine-tuning reads.
 */
module SidInstruct {
  import opened Wrappers
  import opened Text
  import opened SceneGraphs
  import opened Chat
  import opened Seqs

  /** A message as the JSON gives it: role, content, and any other fields */
  datatype InputMessage = InputMessage(role: string, content: string, extra: map<string, string>)

  /** The `IndexError` of `pop` or `[-1]` on an empty list */
  datatype IndexError = IndexError

  // ---------------------------------------------------------------------
  // create_sample

  /** `create_sample`: each message reduced to its role and content, in order */
  function CreateSample(messages: seq<InputMessage>): (sample: seq<Message>)
    ensures |sample| == |messages|
    ensures forall i :: 0 <= i < |messages| ==> sample[i] == Message(messages[i].role, messages[i].content)
  {
    seq(|messages|, i requires 0 <= i < |messages| => Message(messages[i].role, messages[i].content))
  }

  /** Fields other than role and content never reach the sample. */
  lemma CreateSampleDropsExtra(a: seq<InputMessage>, b: seq<InputMessage>)
    requires |a| == |b| && forall i :: 0 <= i < |a| ==> a[i].role == b[i].role && a[i].content == b[i].content
    ensures CreateSample(a) == CreateSample(b)
  {
  }

  // ---------------------------------------------------------------------
  // create_instruction_sample

  /** The line for instruction `i` (counted from 0): `f"{i + 1}. {instruction}"` */
  function StepLine(i: nat, instruction: string): string {
    NatToString(i + 1) + ". " + instruction
  }

  /** The step lines of a list of instructions */
  function StepLines(xs: seq<string>): (ls: seq<string>)
    ensures |ls| == |xs| && forall i :: 0 <= i < |xs| ==> ls[i] == StepLine(i, xs[i])
  {
    seq(|xs|, i requires 0 <= i < |xs| => StepLine(i, xs[i]))
  }

  /** The numbered text the loop of `create_instruction_sample` builds */
  function Numbered(xs: seq<string>): string {
    if xs == [] then "" else Numbered(xs[..|xs| - 1]) + StepLine(|xs| - 1, xs[|xs| - 1]) + "\n"
  }

  /** The loop `instructions_ += f"{i + 1}. {instruction}\n"` */
  method NumberInstructions(instructions: seq<string>) returns (text: string)
    ensures text == Numbered(instructions)
  {
    text := "";
    for i := 0 to |instructions|
      invariant text == Numbered(instructions[..i])
    {
      assert instructions[..i + 1][..i] == instructions[..i];
      text := text + NatToString(i + 1) + ". " + instructions[i] + "\n";
    }
    assert instructions[..|instructions|] == instructions;
  }

  /** A non-empty numbered text is its step lines, each ended by a newline. */
  lemma {:induction false} NumberedIsJoin(xs: seq<string>)
    requires xs != []
    ensures Numbered(xs) == Join(StepLines(xs), "\n") + "\n"
    decreases |xs|
  {
    var n := |xs| - 1;
    var front := xs[..n];
    if front == [] {
      assert StepLines(xs) == [StepLine(0, xs[0])];
    } else {
      NumberedIsJoin(front);
      assert StepLines(xs) == StepLines(front) + [StepLine(n, xs[n])];
      JoinAppend(StepLines(front), [StepLine(n, xs[n])], "\n");
    }
  }

  /** A step line holds no newline when its instruction holds none. */
  lemma StepLineNoNewline(i: nat, x: string)
    requires '\n' !in x
    ensures '\n' !in StepLine(i, x)
  {
    NatToStringDigits(i + 1);
    var d := NatToString(i + 1);
    assert forall c :: c in d ==> '0' <= c <= '9';
  }

  /**
   * Splitting the numbered text at its newlines gives back line `i` as
   * `"{i + 1}. {instruction i}"`, and an empty tail after the last newline,
   * as long as no instruction holds a newline of its own.
   */
  lemma NumberedLines(xs: seq<string>)
    requires forall i :: 0 <= i < |xs| ==> '\n' !in xs[i]
    ensures Split(Numbered(xs), "\n") == StepLines(xs) + [""]
  {
    if xs == [] {
      assert Split("", "\n") == [""];
    } else {
      var ls := StepLines(xs) + [""];
      NumberedJoinsLines(xs);
      LinesHoldNoNewline(xs);
      SplitJoinChar(ls, '\n');
    }
  }

  /** The numbered text joins the step lines and an empty last line. */
  lemma NumberedJoinsLines(xs: seq<string>)
    requires xs != []
    ensures Join(StepLines(xs) + [""], "\n") == Numbered(xs)
  {
    NumberedIsJoin(xs);
    JoinAppend(StepLines(xs), [""], "\n");
    assert Join([""], "\n") == "";
  }

  /** No step line, nor the empty last line, holds a newline. */
  lemma LinesHoldNoNewline(xs: seq<string>)
    requires forall i :: 0 <= i < |xs| ==> '\n' !in xs[i]
    ensures forall i :: 0 <= i < |StepLines(xs) + [""]| ==> '\n' !in (StepLines(xs) + [""])[i]
  {
    var ls := StepLines(xs) + [""];
    forall i | 0 <= i < |ls| ensures '\n' !in ls[i] {
      if i < |xs| {
        StepLineNoNewline(i, xs[i]);
      }
    }
  }

  // The fixed wording of the questions, kept as named constants
  const StepsAsk: string := ", what steps do I need to perform the task: "
  const HowAsk: string := "How do I perform the task: "
  const HowGiven: string := " in a real-world scene, given a partial scene graph "
  const SummaryOpening: string := "Thank you. I think I have all the information I need to perform the task: "
  const SummaryClosing: string := ". Can you summarize the steps?"

  /** The user turn of the first instruction sample */
  function StepsQuestion(sceneGraph: Graph, scenario: string): string
    requires sceneGraph.objects.Valid()
  {
    "Given the scene " + Render(sceneGraph) + StepsAsk + scenario + "?"
  }

  /** The user turn of the second instruction sample */
  function HowQuestion(pruned: Graph, scenario: string): string
    requires pruned.objects.Valid()
  {
    HowAsk + scenario + HowGiven + Render(pruned) + "?"
  }

  /**
   * `create_instruction_sample` once the instruction JSON is parsed into the
   * list of its values: two samples, both answered by the numbered steps,
   * and the numbered steps themselves.
   */
  method CreateInstructionSample(sceneGraph: Graph, scenario: string, pruned: Graph, instructions: seq<string>)
    returns (samples: seq<seq<Message>>, text: string)
    requires sceneGraph.objects.Valid() && pruned.objects.Valid()
    ensures text == Numbered(instructions)
    ensures |samples| == 2 && forall k :: 0 <= k < 2 ==> |samples[k]| == 2
    ensures samples[0][0] == Message("user", StepsQuestion(sceneGraph, scenario))
    ensures samples[1][0] == Message("user", HowQuestion(pruned, scenario))
    ensures samples[0][1] == samples[1][1] == Message("assistant", text)
  {
    text := NumberInstructions(instructions);
    var s1 := CreateSample([InputMessage("user", StepsQuestion(sceneGraph, scenario), map[]),
                            InputMessage("assistant", text, map[])]);
    var s2 := CreateSample([InputMessage("user", HowQuestion(pruned, scenario), map[]),
                            InputMessage("assistant", text, map[])]);
    samples := [s1, s2];
  }

  // ---------------------------------------------------------------------
  // Conversation trimming in create_sid_instruct

  /** The closing user turn added to every conversation */
  function SummaryRequest(scenario: string): string {
    SummaryOpening + scenario + SummaryClosing
  }

  /**
   * The conversation of a sample: the stored messages from the second one
   * on, the last one dropped only when it is a user message, then the
   * summary request and the numbered steps as its answer.
   */
  function Trimmed(conversation: seq<InputMessage>, scenario: string, steps: string): (t: seq<InputMessage>)
    requires |conversation| >= 2
    ensures var kept := if conversation[|conversation| - 1].role == "user" then |conversation| - 2 else |conversation| - 1;
            && |t| == kept + 2
            && t[..kept] == conversation[1..1 + kept]
            && t[kept] == InputMessage("user", SummaryRequest(scenario), map[])
            && t[kept + 1] == InputMessage("assistant", steps, map[])
  {
    var rest := conversation[1..];
    var kept := if rest[|rest| - 1].role == "user" then rest[..|rest| - 1] else rest;
    kept + [InputMessage("user", SummaryRequest(scenario), map[]), InputMessage("assistant", steps, map[])]
  }

  /** The trimmed conversation ends with the summary request and the steps as the answer. */
  lemma TrimmedEnds(conversation: seq<InputMessage>, scenario: string, steps: string)
    requires |conversation| >= 2
    ensures var t := Trimmed(conversation, scenario, steps);
            && |t| >= 2
            && t[|t| - 2] == InputMessage("user", SummaryRequest(scenario), map[])
            && t[|t| - 1] == InputMessage("assistant", steps, map[])
  {
  }

  /**
   * The trimming in `create_sid_instruct`, on a copy of the stored
   * conversation.  An empty list raises where `pop(0)`
   * or `[-1]` meets it.  The stored conversation is a value here, so the
   * copy leaves it as it was.
   */
  method TrimConversation(conversation: seq<InputMessage>, scenario: string, steps: string)
    returns (r: Result<seq<InputMessage>, IndexError>)
    ensures r.Err? <==> |conversation| <= 1
    ensures r.Ok? ==> r.value == Trimmed(conversation, scenario, steps)
  {
    var copy := conversation;
    if |copy| == 0 {
      return Err(IndexError);
    }
    copy := copy[1..];
    if |copy| == 0 {
      return Err(IndexError);
    }
    if copy[|copy| - 1].role == "user" {
      copy := copy[..|copy| - 1];
    }
    copy := copy + [InputMessage("user", SummaryRequest(scenario), map[]), InputMessage("assistant", steps, map[])];
    return Ok(copy);
  }

  /**
   * The samples of one scenario: the two instruction samples, then the
   * trimmed conversation, whose last answer is the same numbered text.
   */
  method ScenarioSamples(sceneGraph: Graph, scenario: string, pruned: Graph, instructions: seq<string>,
                         conversation: seq<InputMessage>)
    returns (r: Result<seq<seq<Message>>, IndexError>)
    requires sceneGraph.objects.Valid() && pruned.objects.Valid()
    ensures r.Err? <==> |conversation| <= 1
    ensures r.Ok? ==>
              && |r.value| == 3 && |r.value[0]| == 2 && |r.value[1]| == 2
              && r.value[0][1].content == r.value[1][1].content == Numbered(instructions)
              && |r.value[2]| >= 2
              && r.value[2][|r.value[2]| - 1] == Message("assistant", Numbered(instructions))
              && r.value[2][|r.value[2]| - 2] == Message("user", SummaryRequest(scenario))
    ensures r.Ok? ==>
              && r.value[0][0] == Message("user", StepsQuestion(sceneGraph, scenario))
              && r.value[1][0] == Message("user", HowQuestion(pruned, scenario))
              && r.value[2] == CreateSample(Trimmed(conversation, scenario, Numbered(instructions)))
  {
    var samples, steps := CreateInstructionSample(sceneGraph, scenario, pruned, instructions);
    var trimmed := TrimConversation(conversation, scenario, steps);
    if trimmed.Err? {
      return Err(trimmed.error);
    }
    var t := trimmed.value;
    TrimmedEnds(conversation, scenario, steps);
    var kept := |t| - 2;
    var last := CreateSample(t);
    assert last[kept] == Message("user", SummaryRequest(scenario));
    assert last[kept + 1] == Message("assistant", steps);
    var all := samples + [last];
    assert all[0] == samples[0] && all[1] == samples[1] && all[2] == last;
    r := Ok(all);
  }

  // ---------------------------------------------------------------------
  // jsonl2gemma

  /** One turn: `<start_of_turn>{role}\n{text}<end_of_turn>\n`, the text with its quotes doubled */
  function Turn(m: Message): string {
    TurnBody(GemmaRole(m.role), Escaped(m.content)) + "\n"
  }

  /** The same turn before quoting */
  function RawTurn(m: Message): string {
    TurnBody(GemmaRole(m.role), m.content) + "\n"
  }

  function Turns(ms: seq<Message>): string {
    if ms == [] then "" else Turns(ms[..|ms| - 1]) + Turn(ms[|ms| - 1])
  }

  function RawTurns(ms: seq<Message>): string {
    if ms == [] then "" else RawTurns(ms[..|ms| - 1]) + RawTurn(ms[|ms| - 1])
  }

  /** One record: one quoted CSV field `"<bos>` + turns + `<eos>"` */
  function Record(ms: seq<Message>): string {
    "\"<bos>" + Turns(ms) + "<eos>\""
  }

  /** The CSV text: a `prompt` header line, then one record per line */
  function GemmaCsv(data: seq<seq<Message>>): string {
    if data == [] then "prompt\n" else GemmaCsv(data[..|data| - 1]) + Record(data[|data| - 1]) + "\n"
  }

  /** The inner loop: the field for one record */
  method RecordText(messages: seq<Message>) returns (content: string)
    ensures content == Record(messages)
  {
    var turns := "";
    for j := 0 to |messages|
      invariant turns == Turns(messages[..j])
    {
      assert messages[..j + 1][..j] == messages[..j];
      var text := ReplaceAll(messages[j].content, "\"", "\"\"");
      var role := messages[j].role;
      if role != "user" {
        role := "model";
      }
      turns := turns + TurnBody(role, text) + "\n";
    }
    assert messages[..|messages|] == messages;
    content := "\"<bos>" + turns + "<eos>\"";
  }

  /**
   * `jsonl2gemma` once the JSONL lines are parsed: the `ValueError` for a
   * path that is missing or not `.jsonl`, before anything is written, else
   * the CSV text that is written.
   */
  method Jsonl2Gemma(infile: string, onDisk: bool, data: seq<seq<Message>>) returns (r: Result<string, InputError>)
    ensures r.Err? <==> !ValidInput(infile, onDisk)
    ensures r.Err? ==> r.error == InvalidInputFile(infile)
    ensures r.Ok? ==> r.value == GemmaCsv(data)
  {
    if !onDisk || !EndsWith(infile, ".jsonl") {
      return Err(InvalidInputFile(infile));
    }
    var converted := "prompt\n";
    for i := 0 to |data|
      invariant converted == GemmaCsv(data[..i])
    {
      assert data[..i + 1][..i] == data[..i];
      var content := RecordText(data[i]);
      converted := converted + content + "\n";
    }
    assert data[..|data|] == data;
    return Ok(converted);
  }

  /** The CSV text starts with its header line. */
  lemma {:induction false} GemmaCsvHeader(data: seq<seq<Message>>)
    ensures |GemmaCsv(data)| >= 7 && GemmaCsv(data)[..7] == "prompt\n"
    decreases |data|
  {
    if data != [] {
      GemmaCsvHeader(data[..|data| - 1]);
    }
  }

  /** The last quoted turn, unfolded */
  lemma TurnsStep(ms: seq<Message>, rest: string)
    requires ms != []
    ensures Turns(ms) + rest
      == Turns(ms[..|ms| - 1]) + (TurnBody(GemmaRole(ms[|ms| - 1].role), Escaped(ms[|ms| - 1].content)) + ("\n" + rest))
  {
    var front, m := ms[..|ms| - 1], ms[|ms| - 1];
    var body := TurnBody(GemmaRole(m.role), Escaped(m.content));
    calc {
      Turns(ms) + rest;
      (Turns(front) + (body + "\n")) + rest;
      { ConcatAssoc(Turns(front), body + "\n", rest); }
      Turns(front) + ((body + "\n") + rest);
      { ConcatAssoc(body, "\n", rest); }
      Turns(front) + (body + ("\n" + rest));
    }
  }

  /** The last raw turn, unfolded */
  lemma RawTurnsStep(ms: seq<Message>, rest: string)
    requires ms != []
    ensures RawTurns(ms) + rest
      == RawTurns(ms[..|ms| - 1]) + (TurnBody(GemmaRole(ms[|ms| - 1].role), ms[|ms| - 1].content) + ("\n" + rest))
  {
    var front, m := ms[..|ms| - 1], ms[|ms| - 1];
    var raw := TurnBody(GemmaRole(m.role), m.content);
    calc {
      RawTurns(ms) + rest;
      (RawTurns(front) + (raw + "\n")) + rest;
      { ConcatAssoc(RawTurns(front), raw + "\n", rest); }
      RawTurns(front) + ((raw + "\n") + rest);
      { ConcatAssoc(raw, "\n", rest); }
      RawTurns(front) + (raw + ("\n" + rest));
    }
  }

  /** Quoted turns read back as the raw turns, whatever follows them. */
  lemma {:induction false} UnescapeTurns(ms: seq<Message>, rest: string)
    ensures Unescape(Turns(ms) + rest) == RawTurns(ms) + Unescape(rest)
    decreases |ms|
  {
    if ms == [] {
      assert Turns(ms) + rest == rest;
    } else {
      var n := |ms| - 1;
      var role := GemmaRole(ms[n].role);
      var text := ms[n].content;
      var tail := TurnBody(role, Escaped(text)) + ("\n" + rest);
      UnescapeTurns(ms[..n], tail);
      UnescapeTurnsStep(ms, rest, tail);
    }
  }

  /** The last turn of `UnescapeTurns`, given the turns before it read back. */
  lemma UnescapeTurnsStep(ms: seq<Message>, rest: string, tail: string)
    requires ms != []
    requires tail == TurnBody(GemmaRole(ms[|ms| - 1].role), Escaped(ms[|ms| - 1].content)) + ("\n" + rest)
    requires Unescape(Turns(ms[..|ms| - 1]) + tail) == RawTurns(ms[..|ms| - 1]) + Unescape(tail)
    ensures Unescape(Turns(ms) + rest) == RawTurns(ms) + Unescape(rest)
  {
    var n := |ms| - 1;
    var role := GemmaRole(ms[n].role);
    var text := ms[n].content;
    calc {
      Unescape(Turns(ms) + rest);
      { TurnsStep(ms, rest); }
      Unescape(Turns(ms[..n]) + tail);
      RawTurns(ms[..n]) + Unescape(tail);
      { UnescapeTurnBody(role, text, "\n" + rest); }
      RawTurns(ms[..n]) + (TurnBody(role, text) + Unescape("\n" + rest));
      { UnescapePlain("\n", rest); }
      RawTurns(ms[..n]) + (TurnBody(role, text) + ("\n" + Unescape(rest)));
      { RawTurnsStep(ms, Unescape(rest)); }
      RawTurns(ms) + Unescape(rest);
    }
  }

  /** Read as a quoted CSV field, a record gives back its turns with every quote single again. */
  lemma RecordUnquotes(ms: seq<Message>)
    ensures |Record(ms)| >= 2 && Record(ms)[0] == '"' && Record(ms)[|Record(ms)| - 1] == '"'
    ensures UnquoteField(Record(ms)) == "<bos>" + RawTurns(ms) + "<eos>"
  {
    RecordInside(ms);
    var f := Record(ms);
    calc {
      UnquoteField(f);
      Unescape("<bos>" + (Turns(ms) + "<eos>"));
      { UnescapePlain("<bos>", Turns(ms) + "<eos>"); }
      "<bos>" + Unescape(Turns(ms) + "<eos>");
      { UnescapeTurns(ms, "<eos>"); }
      "<bos>" + (RawTurns(ms) + Unescape("<eos>"));
      { UnescapePlain("<eos>", ""); assert "<eos>" + "" == "<eos>"; }
      "<bos>" + (RawTurns(ms) + "<eos>");
      { ConcatAssoc("<bos>", RawTurns(ms), "<eos>"); }
      "<bos>" + RawTurns(ms) + "<eos>";
    }
  }

  /** A record is a quoted field around the turns and the two markers. */
  lemma RecordInside(ms: seq<Message>)
    ensures |Record(ms)| >= 2 && Record(ms)[0] == '"' && Record(ms)[|Record(ms)| - 1] == '"'
    ensures Record(ms)[1..|Record(ms)| - 1] == "<bos>" + (Turns(ms) + "<eos>")
  {
    var inside := "<bos>" + (Turns(ms) + "<eos>");
    calc {
      Record(ms);
      "\"<bos>" + Turns(ms) + "<eos>\"";
      { assert "\"<bos>" == "\"" + "<bos>" && "<eos>\"" == "<eos>" + "\""; }
      ("\"" + "<bos>") + Turns(ms) + ("<eos>" + "\"");
      { ConcatAssoc("\"" + "<bos>", Turns(ms), "<eos>" + "\"");
        ConcatAssoc(Turns(ms), "<eos>", "\"");
        ConcatAssoc("\"", "<bos>", Turns(ms) + "<eos>" + "\"");
        ConcatAssoc("<bos>", Turns(ms) + "<eos>", "\"");
        ConcatAssoc("\"", inside, "\""); }
      "\"" + inside + "\"";
    }
  }
}
