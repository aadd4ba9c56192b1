/** The chat record and the plain-text transcript that both the chat page and the history
    browser offer for download. Each record becomes one block of six lines, the last a rule
    of fifty dashes. */
module Transcript {
  import opened Text
  import opened Wrappers

  /** One exchange: the tuple `(q, a, model, ts, pdf)` of the chat page and the dictionary
      with keys "question", "answer", "model", "timestamp", "pdfs" of the history file. */
  datatype Chat = Chat(question: string, answer: string, model: string, timestamp: string, pdfs: string)

  /** `'-' * 50`: fifty dashes. */
  const Rule: string := "--------------------------------------------------"

  /** The label that opens each line of a block; the last line (the rule) has no value. */
  const Tags: seq<string> := ["Question: ", "Answer: ", "Model: ", "Timestamp: ", "PDFs: ", Rule]

  function Values(c: Chat): seq<string>
  {
    [c.question, c.answer, c.model, c.timestamp, c.pdfs, ""]
  }

  /** The lines `tags[i] + vs[i]`, each ended by a line break. */
  function Lines(tags: seq<string>, vs: seq<string>): string
    requires |tags| == |vs|
  {
    if |tags| == 0 then "" else tags[0] + vs[0] + "\n" + Lines(tags[1..], vs[1..])
  }

  /** The block written for one record. */
  function Block(c: Chat): string
  {
    Lines(Tags, Values(c))
  }

  /** The blocks of the records, in order. */
  function Blocks(cs: seq<Chat>): (bs: seq<string>)
    ensures |bs| == |cs| && forall i :: 0 <= i < |cs| ==> bs[i] == Block(cs[i])
  {
    seq(|cs|, i requires 0 <= i < |cs| => Block(cs[i]))
  }

  /** The whole transcript: the blocks of the records, one after the other. */
  function Export(cs: seq<Chat>): string
  {
    Concat(Blocks(cs))
  }

  /** The loop that builds the transcript one record at a time. */
  method BuildExport(cs: seq<Chat>) returns (text: string)
    ensures text == Export(cs)
  {
    text := "";
    for i := 0 to |cs|
      invariant text == Export(cs[..i])
    {
      ExportSnoc(cs[..i], cs[i]);
      assert cs[..i + 1] == cs[..i] + [cs[i]];
      text := text + Block(cs[i]);
    }
    assert cs[..|cs|] == cs;
  }

  /** Adding a record adds its block at the end. */
  lemma ExportSnoc(cs: seq<Chat>, c: Chat)
    ensures Export(cs + [c]) == Export(cs) + Block(c)
  {
    assert Blocks(cs + [c]) == Blocks(cs) + [Block(c)];
    assert (Blocks(cs) + [Block(c)])[..|cs|] == Blocks(cs);
  }

  /** The transcript of two lists of records is the two transcripts one after the other. */
  lemma ExportAppend(a: seq<Chat>, b: seq<Chat>)
    ensures Export(a + b) == Export(a) + Export(b)
  {
    assert Blocks(a + b) == Blocks(a) + Blocks(b);
    ConcatAppend(Blocks(a), Blocks(b));
  }

  /** The transcript is empty exactly when there is no record, since every block starts
      with "Question: ". */
  lemma {:induction false} ExportEmptyIff(cs: seq<Chat>)
    ensures Export(cs) == "" <==> cs == []
  {
    if |cs| > 0 {
      var n := |cs| - 1;
      assert cs == cs[..n] + [cs[n]];
      ExportSnoc(cs[..n], cs[n]);
      var b := Block(cs[n]);
      assert b[0] == 'Q';
      assert Export(cs)[|Export(cs[..n])|] == b[0];
    }
  }

  /** No field contains a line break. */
  predicate SingleLine(c: Chat)
  {
    '\n' !in c.question && '\n' !in c.answer && '\n' !in c.model
    && '\n' !in c.timestamp && '\n' !in c.pdfs
  }

  /** The text before the first line break of `s`, and the text after it. */
  function NextLine(s: string): (r: Option<(string, string)>)
    ensures r.Some? ==> s == r.value.0 + "\n" + r.value.1 && '\n' !in r.value.0
    ensures r.None? <==> '\n' !in s
    decreases |s|
  {
    if |s| == 0 then None
    else if s[0] == '\n' then Some(("", s[1..]))
    else match NextLine(s[1..])
      case None => None
      case Some(lr) => Some(([s[0]] + lr.0, lr.1))
  }

  lemma {:induction false} NextLineOf(l: string, r: string)
    requires '\n' !in l
    ensures NextLine(l + "\n" + r) == Some((l, r))
    decreases |l|
  {
    var s := l + "\n" + r;
    if |l| == 0 {
      assert s[1..] == r;
    } else {
      assert s[1..] == l[1..] + "\n" + r;
      NextLineOf(l[1..], r);
      assert [s[0]] + l[1..] == l;
    }
  }

  /** A line that starts with `tag`: the rest of the line, and the text after it. */
  function Field(tag: string, s: string): (r: Option<(string, string)>)
    ensures r.Some? ==> |r.value.1| < |s|
  {
    if tag <= s then NextLine(s[|tag|..]) else None
  }

  lemma FieldOf(tag: string, v: string, r: string)
    requires '\n' !in v
    ensures Field(tag, tag + v + "\n" + r) == Some((v, r))
  {
    assert (tag + v + "\n" + r)[|tag|..] == v + "\n" + r;
    NextLineOf(v, r);
  }

  /** Reads one line per tag of `tags` from the front of `s`: their values, and the rest. */
  function Fields(tags: seq<string>, s: string): (r: Option<(seq<string>, string)>)
    ensures r.Some? ==> |r.value.0| == |tags| && |r.value.1| + |tags| <= |s|
  {
    if |tags| == 0 then Some(([], s))
    else match Field(tags[0], s)
      case None => None
      case Some(vr) =>
        match Fields(tags[1..], vr.1)
        case None => None
        case Some(vsr) => Some(([vr.0] + vsr.0, vsr.1))
  }

  /** Reading back lines gives the values that were written, when none holds a line break. */
  lemma {:induction false} FieldsOf(tags: seq<string>, vs: seq<string>, t: string)
    requires |tags| == |vs|
    requires forall i :: 0 <= i < |vs| ==> '\n' !in vs[i]
    ensures Fields(tags, Lines(tags, vs) + t) == Some((vs, t))
    decreases |tags|
  {
    if |tags| > 0 {
      var rest := Lines(tags[1..], vs[1..]) + t;
      assert Lines(tags, vs) + t == tags[0] + vs[0] + "\n" + rest;
      FieldOf(tags[0], vs[0], rest);
      FieldsOf(tags[1..], vs[1..], t);
      assert [vs[0]] + vs[1..] == vs;
    } else {
      assert Lines(tags, vs) + t == t;
    }
  }

  /** Reads one block from the front of `s`. */
  function ParseBlock(s: string): (r: Option<(Chat, string)>)
    ensures r.Some? ==> |r.value.1| < |s|
  {
    match Fields(Tags, s)
    case None => None
    case Some(vsr) =>
      var vs := vsr.0;
      if vs[5] == "" then Some((Chat(vs[0], vs[1], vs[2], vs[3], vs[4]), vsr.1)) else None
  }

  /** Reads a whole transcript back into its records. */
  function ParseExport(s: string): Option<seq<Chat>>
    decreases |s|
  {
    if |s| == 0 then Some([])
    else match ParseBlock(s)
      case None => None
      case Some(ct) =>
        match ParseExport(ct.1)
        case None => None
        case Some(cs) => Some([ct.0] + cs)
  }

  lemma ParseBlockOf(c: Chat, t: string)
    requires SingleLine(c)
    ensures ParseBlock(Block(c) + t) == Some((c, t))
  {
    FieldsOf(Tags, Values(c), t);
  }

  /** The transcript loses nothing when no field spans several lines: reading it back gives
      the records that were written. */
  lemma {:induction false} ExportRoundTrip(cs: seq<Chat>)
    requires forall i :: 0 <= i < |cs| ==> SingleLine(cs[i])
    ensures ParseExport(Export(cs)) == Some(cs)
    decreases |cs|
  {
    if |cs| > 0 {
      var c, rest := cs[0], cs[1..];
      var t := Export(rest);
      assert [c] + rest == cs;
      ExportCons(c, rest);
      ParseBlockOf(c, t);
      BlockNotEmpty(c);
      ExportRoundTrip(rest);
      ParseExportStep(Block(c) + t, c, t, rest);
    }
  }

  lemma ParseExportStep(s: string, c: Chat, t: string, cs: seq<Chat>)
    requires |s| > 0 && ParseBlock(s) == Some((c, t)) && ParseExport(t) == Some(cs)
    ensures ParseExport(s) == Some([c] + cs)
  {
  }

  /** Adding a record in front adds its block in front. */
  lemma ExportCons(c: Chat, cs: seq<Chat>)
    ensures Export([c] + cs) == Block(c) + Export(cs)
  {
    ExportAppend([c], cs);
    ExportSnoc([], c);
    assert [] + [c] == [c];
  }

  lemma BlockNotEmpty(c: Chat)
    ensures |Block(c)| > 0
  {
  }
}
