/**
 * What the two Gemma converters share: chat messages, the role Gemma is
 * given, the input-file check, and the quoting of a CSV field (rule 7 of
 * section 2 of RFC 4180: a double quote inside a quoted field is written
 * twice).
 */
module Chat {
  import opened Text
  import Seqs

  /** A chat message reduced to the two fields the pipeline reads */
  datatype Message = Message(role: string, content: string)

  /** The `ValueError` a converter raises for its input path */
  datatype InputError = InvalidInputFile(path: string)

  /** `os.path.exists(infile) and infile.endswith('.jsonl')`, the existence test given as `onDisk` */
  predicate ValidInput(infile: string, onDisk: bool) {
    onDisk && EndsWith(infile, ".jsonl")
  }

  /** 'user' stays 'user'; every other role is written as 'model'. */
  function GemmaRole(role: string): (r: string)
    ensures r == "user" || r == "model"
    ensures r == "user" <==> role == "user"
  {
    if role != "user" then "model" else role
  }

  /** `text.replace('"', '""')` */
  function Escaped(text: string): string {
    ReplaceAll(text, "\"", "\"\"")
  }

  /** Reading a quoted field's inside: each `""` stands for one `"`. */
  function Unescape(s: string): string
    decreases |s|
  {
    if s == [] then []
    else if |s| >= 2 && s[0] == '"' && s[1] == '"' then "\"" + Unescape(s[2..])
    else [s[0]] + Unescape(s[1..])
  }

  /** Reading a whole quoted field: the quotes around it dropped, the doubled quotes inside undone. */
  function UnquoteField(f: string): string
    requires |f| >= 2 && f[0] == '"' && f[|f| - 1] == '"'
  {
    Unescape(f[1..|f| - 1])
  }

  /** Escaping works one character at a time. */
  lemma EscapedHead(t: string)
    requires t != []
    ensures Escaped(t) == (if t[0] == '"' then "\"\"" else [t[0]]) + Escaped(t[1..])
  {
    if t[0] == '"' {
      assert t[..1] == "\"";
    } else {
      assert t[..1] != "\"";
    }
  }

  lemma UnescapePair(rest: string)
    ensures Unescape("\"\"" + rest) == "\"" + Unescape(rest)
  {
    var s := "\"\"" + rest;
    assert s[0] == '"' && s[1] == '"' && s[2..] == rest;
  }

  lemma UnescapeOther(c: char, rest: string)
    requires c != '"'
    ensures Unescape([c] + rest) == [c] + Unescape(rest)
  {
    var s := [c] + rest;
    assert s[1..] == rest;
  }

  /** Escaped text reads back as itself, whatever follows it. */
  lemma {:induction false} UnescapeEscaped(t: string, rest: string)
    ensures Unescape(Escaped(t) + rest) == t + Unescape(rest)
    decreases |t|
  {
    if t == [] {
      assert Escaped(t) + rest == rest;
    } else {
      UnescapeEscaped(t[1..], rest);
      UnescapeEscapedStep(t, rest);
    }
  }

  /** One character of `UnescapeEscaped`, given the rest of the text reads back. */
  lemma UnescapeEscapedStep(t: string, rest: string)
    requires t != []
    requires Unescape(Escaped(t[1..]) + rest) == t[1..] + Unescape(rest)
    ensures Unescape(Escaped(t) + rest) == t + Unescape(rest)
  {
    EscapedHead(t);
    var tail := Escaped(t[1..]) + rest;
    if t[0] == '"' {
      Seqs.ConcatAssoc("\"\"", Escaped(t[1..]), rest);
      UnescapePair(tail);
    } else {
      Seqs.ConcatAssoc([t[0]], Escaped(t[1..]), rest);
      UnescapeOther(t[0], tail);
    }
    Seqs.ConcatAssoc([t[0]], t[1..], Unescape(rest));
    assert [t[0]] + t[1..] == t;
  }

  /** Text without quotes reads back as itself, whatever follows it. */
  lemma {:induction false} UnescapePlain(t: string, rest: string)
    requires '"' !in t
    ensures Unescape(t + rest) == t + Unescape(rest)
    decreases |t|
  {
    if t != [] {
      assert t + rest == [t[0]] + (t[1..] + rest);
      UnescapePlain(t[1..], rest);
    } else {
      assert t + rest == rest;
    }
  }

  /** Reading the escaped text back as the inside of a quoted field gives the text itself. */
  lemma {:induction false} EscapedReadsBack(t: string)
    ensures Unescape(Escaped(t)) == t
  {
    UnescapeEscaped(t, "");
    assert Escaped(t) + "" == Escaped(t);
  }

  /** `<start_of_turn>{role}\n{text}<end_of_turn>`, the part of a turn both converters write */
  function TurnBody(role: string, text: string): string {
    "<start_of_turn>" + role + "\n" + text + "<end_of_turn>"
  }

  /** The opening of a turn, up to its text */
  function TurnHead(role: string): string {
    "<start_of_turn>" + role + "\n"
  }

  /** A turn body followed by more text, grouped around its text. */
  lemma TurnBodyAround(role: string, text: string, rest: string)
    ensures TurnBody(role, text) + rest == TurnHead(role) + (text + ("<end_of_turn>" + rest))
  {
    var head := TurnHead(role);
    var close := "<end_of_turn>";
    assert TurnBody(role, text) == head + text + close;
    Seqs.ConcatAssoc(head + text, close, rest);
    Seqs.ConcatAssoc(head, text, close + rest);
  }

  /** A turn body opens with the start-of-turn marker. */
  lemma TurnBodyOpens(role: string, text: string)
    ensures |TurnBody(role, text)| >= 15 && TurnBody(role, text)[..15] == "<start_of_turn>"
  {
    var start := "<start_of_turn>";
    var withRole := start + role;
    var head := withRole + "\n";
    var withText := head + text;
    assert TurnBody(role, text) == withText + "<end_of_turn>";
    Seqs.PrefixOfConcat(withText, "<end_of_turn>", 15);
    Seqs.PrefixOfConcat(head, text, 15);
    Seqs.PrefixOfConcat(withRole, "\n", 15);
    Seqs.PrefixOfConcat(start, role, 15);
    assert start[..15] == start;
  }

  /** A turn body with escaped text reads back as the body with the text as it was. */
  lemma UnescapeTurnBody(role: string, text: string, rest: string)
    requires '"' !in role
    ensures Unescape(TurnBody(role, Escaped(text)) + rest) == TurnBody(role, text) + Unescape(rest)
  {
    var head := TurnHead(role);
    var close := "<end_of_turn>";
    assert '"' !in head;
    assert '"' !in close;
    TurnBodyAround(role, Escaped(text), rest);
    UnescapePlain(head, Escaped(text) + (close + rest));
    UnescapeEscaped(text, close + rest);
    UnescapePlain(close, rest);
    TurnBodyAround(role, text, Unescape(rest));
  }
}
