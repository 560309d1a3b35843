/**
 * `gpt2gemma`: GPT-style fine-tuning data (records of chat messages) turned
 * into the CSV text of Gemma-style data. Unlike `jsonl2gemma`, every
 * message is its own quoted line and no `<bos>`/`<eos>` markers are written;
 * a record ends with an empty line.
 */
module GptToGemma {
  import Seqs
  import opened Wrappers
  import opened Text
  import opened Chat

  /** One message: `"<start_of_turn>{role}\n{text}<end_of_turn>"` and a newline, the text with its quotes doubled */
  function Line(m: Message): string {
    "\"" + TurnBody(GemmaRole(m.role), Escaped(m.content)) + "\"\n"
  }

  function Lines(ms: seq<Message>): string {
    if ms == [] then "" else Lines(ms[..|ms| - 1]) + Line(ms[|ms| - 1])
  }

  /** One record: its lines, then an empty line */
  function Block(ms: seq<Message>): string {
    Lines(ms) + "\n"
  }

  /** The CSV text: a `prompt` header line, then the blocks */
  function Converted(data: seq<seq<Message>>): string {
    if data == [] then "prompt\n" else Converted(data[..|data| - 1]) + Block(data[|data| - 1])
  }

  /** The inner loop over one record's messages */
  method RecordLines(messages: seq<Message>) returns (content: string)
    ensures content == Lines(messages)
  {
    content := "";
    for j := 0 to |messages|
      invariant content == Lines(messages[..j])
    {
      assert messages[..j + 1][..j] == messages[..j];
      var text := messages[j].content;
      text := ReplaceAll(text, "\"", "\"\"");
      var role := messages[j].role;
      if role != "user" {
        role := "model";
      }
      assert text == Escaped(messages[j].content) && role == GemmaRole(messages[j].role);
      content := content + ("\"" + TurnBody(role, text) + "\"\n");
    }
    assert messages[..|messages|] == messages;
  }

  /**
   * `gpt2gemma` once the JSONL lines are parsed: the `ValueError` for a path
   * that is missing or not `.jsonl`, before anything is read, else the CSV
   * text that is written.
   */
  method Gpt2Gemma(infile: string, onDisk: bool, data: seq<seq<Message>>) returns (r: Result<string, InputError>)
    ensures r.Err? <==> !ValidInput(infile, onDisk)
    ensures r.Err? ==> r.error == InvalidInputFile(infile)
    ensures r.Ok? ==> r.value == Converted(data)
  {
    if !onDisk || !EndsWith(infile, ".jsonl") {
      return Err(InvalidInputFile(infile));
    }
    var converted := "prompt\n";
    for i := 0 to |data|
      invariant converted == Converted(data[..i])
    {
      assert data[..i + 1][..i] == data[..i];
      var content := RecordLines(data[i]);
      converted := converted + content + "\n";
    }
    assert data[..|data|] == data;
    return Ok(converted);
  }

  /** The CSV text starts with its header line. */
  lemma {:induction false} ConvertedHeader(data: seq<seq<Message>>)
    ensures |Converted(data)| >= 7 && Converted(data)[..7] == "prompt\n"
    decreases |data|
  {
    if data != [] {
      ConvertedHeader(data[..|data| - 1]);
    }
  }

  /** A message line ends with the closing quote and its newline. */
  lemma LineEnds(m: Message)
    ensures |Line(m)| >= 2 && Line(m)[|Line(m)| - 2..] == "\"\n"
  {
    var start := "\"" + TurnBody(GemmaRole(m.role), Escaped(m.content));
    assert Line(m) == start + "\"\n";
    Seqs.SuffixOfConcat(start, "\"\n", 2);
  }

  /** Message lines end as their last line does. */
  lemma LinesEnd(ms: seq<Message>)
    requires ms != []
    ensures |Lines(ms)| >= 2 && Lines(ms)[|Lines(ms)| - 2..] == "\"\n"
  {
    var l := Line(ms[|ms| - 1]);
    assert Lines(ms) == Lines(ms[..|ms| - 1]) + l;
    LineEnds(ms[|ms| - 1]);
    Seqs.SuffixOfConcat(Lines(ms[..|ms| - 1]), l, 2);
  }

  /** Every record ends with an empty line: after a message line, a second newline. */
  lemma BlockEnds(ms: seq<Message>)
    ensures |Block(ms)| >= 1 && Block(ms)[|Block(ms)| - 1] == '\n'
    ensures ms != [] ==> |Block(ms)| >= 3 && Block(ms)[|Block(ms)| - 3..] == "\"\n\n"
  {
    var b := Block(ms);
    assert b == Lines(ms) + "\n";
    if ms != [] {
      LinesEnd(ms);
      Seqs.SuffixAcross(Lines(ms), "\n", 2);
      assert b[|b| - 3..] == Lines(ms)[|Lines(ms)| - 2..] + "\n";
      assert "\"\n" + "\n" == "\"\n\n";
    }
  }

  /** A message line opens with its quote and the start of a turn. */
  lemma LineOpens(m: Message)
    ensures |Line(m)| >= 16 && Line(m)[..16] == "\"<start_of_turn>"
  {
    var body := TurnBody(GemmaRole(m.role), Escaped(m.content));
    var start := "\"" + body;
    assert Line(m) == start + "\"\n";
    TurnBodyOpens(GemmaRole(m.role), Escaped(m.content));
    Seqs.PrefixOfConcat(start, "\"\n", 16);
    assert start[..16] == "\"" + body[..15];
  }

  /** Message lines open with a turn. */
  lemma {:induction false} LinesOpen(ms: seq<Message>)
    requires ms != []
    ensures |Lines(ms)| >= 16 && Lines(ms)[..16] == "\"<start_of_turn>"
    decreases |ms|
  {
    var front := ms[..|ms| - 1];
    var l := Line(ms[|ms| - 1]);
    LineOpens(ms[|ms| - 1]);
    assert Lines(ms) == Lines(front) + l;
    if front != [] {
      LinesOpen(front);
      assert Lines(ms)[..16] == Lines(front)[..16];
    } else {
      assert Lines(ms) == l;
    }
  }

  /** A record with messages opens with a turn, not with `<bos>` as in `jsonl2gemma`. */
  lemma BlockOpensWithTurn(ms: seq<Message>)
    requires ms != []
    ensures |Block(ms)| >= 16 && Block(ms)[..16] == "\"<start_of_turn>"
  {
    LinesOpen(ms);
    assert Block(ms)[..16] == Lines(ms)[..16];
  }

  /** Each message line, read as a quoted CSV field, gives back the turn with its text as written. */
  lemma LineUnquotes(m: Message)
    ensures |Line(m)| >= 3 && Line(m)[|Line(m)| - 1] == '\n'
    ensures Line(m)[0] == '"' && Line(m)[|Line(m)| - 2] == '"'
    ensures UnquoteField(Line(m)[..|Line(m)| - 1]) == TurnBody(GemmaRole(m.role), m.content)
  {
    var role := GemmaRole(m.role);
    var body := TurnBody(role, Escaped(m.content));
    var l := Line(m);
    var f := l[..|l| - 1];
    assert f == "\"" + body + "\"";
    assert f[1..|f| - 1] == body;
    UnescapeTurnBody(role, m.content, "");
    assert body + "" == body;
    assert TurnBody(role, m.content) + "" == TurnBody(role, m.content);
  }
}
