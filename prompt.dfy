/**
 * The LLM prompt of prompt.py: the fixed system instructions, the numbered
 * context blocks built from the retrieved chunks, and the two-message
 * envelope.
 */
module Prompt {
  import opened Text
  import opened Retrieval

  const SYSTEM_PROMPT: string :=
    "Usa esclusivamente le informazioni presenti nel CONTESTO.\n\n"
    + "Se la risposta non \U{e8} presente, scrivi:\n"
    + "\"Informazione non presente nel contesto fornito.\"\n\n"
    + "Fornisci:\n\n"
    + "1. Risposta sintetica\n"
    + "2. Articoli rilevanti (se presenti)\n"
    + "3. Ambito di applicazione (se disponibile)\n"
    + "4. Note o eccezioni (se presenti)\n\n"
    + "Cita sempre gli articoli quando disponibili."

  const BLOCK_SEPARATOR: string := "\n\n---\n\n"

  function Header(i: nat): string {
    "[Chunk " + NatToString(i) + "]"
  }

  /** The lines of the block of chunk number `i`: the header, then title,
      article, text and source, each only when non-empty. */
  function BlockLines(c: Chunk, i: nat): seq<string> {
    [Header(i)]
    + (if c.title != "" then ["Titolo: " + c.title] else [])
    + (if c.articleNumber != "" then ["Articolo: " + c.articleNumber] else [])
    + (if c.text != "" then [c.text] else [])
    + (if c.sourceUrl != "" then ["Fonte: " + c.sourceUrl] else [])
  }

  function Block(c: Chunk, i: nat): string {
    JoinWith("\n", BlockLines(c, i))
  }

  /** One block per chunk, numbered from 1 in input order. */
  function Blocks(chunks: seq<Chunk>): (r: seq<string>)
    ensures |r| == |chunks|
    ensures forall k :: 0 <= k < |r| ==> r[k] == Block(chunks[k], k + 1)
  {
    seq(|chunks|, k requires 0 <= k < |chunks| => Block(chunks[k], k + 1))
  }

  /** The CONTESTO string `format_context` returns. */
  function ContextText(chunks: seq<Chunk>): string {
    if chunks == [] then "" else JoinWith(BLOCK_SEPARATOR, Blocks(chunks))
  }

  /** `format_context`: builds each block line by line, then joins. */
  method FormatContext(chunks: seq<Chunk>) returns (context: string)
    ensures context == ContextText(chunks)
    ensures chunks == [] <==> context == ""
  {
    if chunks == [] {
      return "";
    }
    var parts: seq<string> := [];
    var i := 0;
    while i < |chunks|
      invariant 0 <= i <= |chunks|
      invariant |parts| == i
      invariant forall k :: 0 <= k < i ==> parts[k] == Block(chunks[k], k + 1)
    {
      var block := BlockOf(chunks[i], i + 1);
      parts := parts + [JoinWith("\n", block)];
      i := i + 1;
    }
    assert parts == Blocks(chunks);
    context := JoinWith(BLOCK_SEPARATOR, parts);
    ContextStartsWithFirstHeader(chunks);
  }

  /** The lines of one block, appended field by field. */
  method BlockOf(c: Chunk, i: nat) returns (block: seq<string>)
    ensures block == BlockLines(c, i)
  {
    block := [Header(i)];
    if c.title != "" {
      block := block + ["Titolo: " + c.title];
    }
    if c.articleNumber != "" {
      block := block + ["Articolo: " + c.articleNumber];
    }
    if c.text != "" {
      block := block + [c.text];
    }
    if c.sourceUrl != "" {
      block := block + ["Fonte: " + c.sourceUrl];
    }
  }

  /** A non-empty context opens with the header of chunk 1. */
  lemma ContextStartsWithFirstHeader(chunks: seq<Chunk>)
    requires chunks != []
    ensures StartsWith(ContextText(chunks), Header(1))
    ensures ContextText(chunks) != ""
  {
    var b := Blocks(chunks);
    var first := Block(chunks[0], 1);
    var lines := BlockLines(chunks[0], 1);
    assert JoinWith("\n", lines)[..|Header(1)|] == Header(1) by {
      if |lines| > 1 {
        assert JoinWith("\n", lines) == Header(1) + "\n" + JoinWith("\n", lines[1..]);
      }
    }
    if |b| > 1 {
      assert ContextText(chunks) == first + BLOCK_SEPARATOR + JoinWith(BLOCK_SEPARATOR, b[1..]);
      assert ContextText(chunks)[..|first|] == first;
    }
  }

  /** Appending a chunk appends exactly one block, numbered after the others,
      behind one separator: blocks keep the input order. */
  lemma ContextAppend(chunks: seq<Chunk>, c: Chunk)
    requires chunks != []
    ensures ContextText(chunks + [c]) == ContextText(chunks) + BLOCK_SEPARATOR + Block(c, |chunks| + 1)
  {
    assert Blocks(chunks + [c]) == Blocks(chunks) + [Block(c, |chunks| + 1)];
    JoinWithAppend(BLOCK_SEPARATOR, Blocks(chunks), Block(c, |chunks| + 1));
  }

  /** A chunk with no field set still yields its header, so no block is
      ever dropped; a chunk with every field set yields all five lines in the
      order header, Titolo, Articolo, text, Fonte. */
  lemma BlockLinesShape(c: Chunk, i: nat)
    ensures BlockLines(c, i)[0] == Header(i)
    ensures |BlockLines(c, i)| == 1 + (if c.title != "" then 1 else 0) + (if c.articleNumber != "" then 1 else 0)
                                     + (if c.text != "" then 1 else 0) + (if c.sourceUrl != "" then 1 else 0)
    ensures c.title == "" && c.articleNumber == "" && c.text == "" && c.sourceUrl == "" ==>
              Block(c, i) == Header(i)
    ensures c.title != "" && c.articleNumber != "" && c.text != "" && c.sourceUrl != "" ==>
              BlockLines(c, i) == [Header(i), "Titolo: " + c.title, "Articolo: " + c.articleNumber,
                                   c.text, "Fonte: " + c.sourceUrl]
  {
  }

  /** Headers of different blocks differ: the numbering is one-to-one. */
  lemma HeadersDistinct(i: nat, j: nat)
    requires i != j
    ensures Header(i) != Header(j)
  {
    if Header(i) == Header(j) {
      var pre := "[Chunk ";
      assert NatToString(i) == Header(i)[|pre|..|Header(i)| - 1];
      assert NatToString(j) == Header(j)[|pre|..|Header(j)| - 1];
      NatToStringInjective(i, j);
    }
  }

  datatype Message = Message(role: string, content: string)

  const USER_OPENING: string := "CONTESTO:\n\n"
  const QUESTION_MARKER: string := "\n\nDOMANDA: "

  /** `build_messages`: the system instructions, then the user turn carrying
      the context and the question. */
  function BuildMessages(question: string, context: string): (r: seq<Message>)
    ensures |r| == 2
    ensures r[0] == Message("system", SYSTEM_PROMPT)
    ensures r[1].role == "user"
  {
    [Message("system", SYSTEM_PROMPT),
     Message("user", USER_OPENING + context + QUESTION_MARKER + question)]
  }

  /** The user turn holds the context and the question unchanged, at fixed
      places: both can be read back from it. */
  lemma UserMessageCarriesBoth(question: string, context: string)
    ensures var u := BuildMessages(question, context)[1].content;
      && |u| == |USER_OPENING| + |context| + |QUESTION_MARKER| + |question|
      && StartsWith(u, USER_OPENING)
      && u[|USER_OPENING|..|USER_OPENING| + |context|] == context
      && u[|USER_OPENING| + |context|..|u| - |question|] == QUESTION_MARKER
      && u[|u| - |question|..] == question
  {
    var u := BuildMessages(question, context)[1].content;
    assert u == USER_OPENING + context + QUESTION_MARKER + question;
  }
}
