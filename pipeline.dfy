/**
 * The registry-first pipeline of main.py.
 *
 * The collaborators the pipeline calls (the collateral lookup, the vector
 * search, the embedding service and the answer generator) are parameters,
 * bundled in `Services`. A run prints lines and calls collaborators: the
 * model returns the printed lines (one `Line` per `print` call, `LineText`
 * giving the text that call writes), the trace of collaborator calls, and
 * the terminal state the run ends in; `sys.exit(n)` is a terminal state with
 * exit code n.
 */
module Pipeline {
  import opened Wrappers
  import opened Text
  import opened Patterns
  import opened Registry
  import opened Retrieval
  import opened QueryNormalizer
  import opened Prompt

  // ---------------------------------------------------------------------
  // Source attribution
  // ---------------------------------------------------------------------

  const EURLEX_PREFIX: string := "https://eur-lex.europa.eu/legal-content/IT/TXT/?uri=CELEX:"

  /** `_eurlex_link`: the EUR-Lex page of a CELEX number. */
  function EurlexLink(celex: string): (r: string)
    ensures |r| == |EURLEX_PREFIX| + |celex|
    ensures StartsWith(r, EURLEX_PREFIX)
    ensures r[|EURLEX_PREFIX|..] == celex
  {
    EURLEX_PREFIX + celex
  }

  /** Distinct CELEX numbers get distinct links. */
  lemma EurlexLinkInjective(a: string, b: string)
    requires EurlexLink(a) == EurlexLink(b)
    ensures a == b
  {
    assert a == EurlexLink(a)[|EURLEX_PREFIX|..];
  }

  /** One entry of the `lines` list of `_print_normative_sources`. */
  datatype SourceLine =
    | Caption(text: string)     // the entry's label
    | CelexId(celex: string)    // "CELEX: <celex>"
    | Url(url: string)          // a link on a line of its own
    | Blank                     // ""

  function SourceLineText(l: SourceLine): string {
    match l
    case Caption(t) => t
    case CelexId(c) => "CELEX: " + c
    case Url(u) => u
    case Blank => ""
  }

  function SourceTexts(lines: seq<SourceLine>): (r: seq<string>)
    ensures |r| == |lines|
    ensures forall k :: 0 <= k < |lines| ==> r[k] == SourceLineText(lines[k])
  {
    seq(|lines|, k requires 0 <= k < |lines| => SourceLineText(lines[k]))
  }

  /** `[y for x in xs for y in f(x)]`: the lists `f` gives, one after
      another, in the order of `xs`. */
  function Flatten<T, U>(xs: seq<T>, f: T -> seq<U>): seq<U>
    decreases |xs|
  {
    if xs == [] then [] else Flatten(xs[..|xs| - 1], f) + f(xs[|xs| - 1])
  }

  lemma FlattenSnoc<T, U>(xs: seq<T>, x: T, f: T -> seq<U>)
    ensures Flatten(xs + [x], f) == Flatten(xs, f) + f(x)
  {
    assert (xs + [x])[..|xs|] == xs;
  }

  lemma AppendAssoc<T>(a: seq<T>, b: seq<T>, c: seq<T>)
    ensures (a + b) + c == a + (b + c)
  {
  }

  /** Flattening two lists one after the other flattens each in turn. */
  lemma {:induction false} FlattenAppend<T, U>(a: seq<T>, b: seq<T>, f: T -> seq<U>)
    ensures Flatten(a + b, f) == Flatten(a, f) + Flatten(b, f)
    decreases |b|
  {
    if b == [] {
      assert a + b == a;
    } else {
      var front := b[..|b| - 1];
      var x := b[|b| - 1];
      assert b == front + [x];
      assert a + b == (a + front) + [x];
      calc {
        Flatten(a + b, f);
      == { FlattenSnoc(a + front, x, f); }
        Flatten(a + front, f) + f(x);
      == { FlattenAppend(a, front, f); }
        (Flatten(a, f) + Flatten(front, f)) + f(x);
      == { AppendAssoc(Flatten(a, f), Flatten(front, f), f(x)); }
        Flatten(a, f) + (Flatten(front, f) + f(x));
      == { FlattenSnoc(front, x, f); }
        Flatten(a, f) + Flatten(b, f);
      }
    }
  }

  /** The flattening is empty exactly when `f` gives nothing for every element. */
  lemma {:induction false} FlattenEmpty<T, U>(xs: seq<T>, f: T -> seq<U>)
    ensures Flatten(xs, f) == [] <==> forall x :: x in xs ==> f(x) == []
    decreases |xs|
  {
    if xs != [] {
      var front := xs[..|xs| - 1];
      FlattenEmpty(front, f);
      assert xs == front + [xs[|xs| - 1]];
    }
  }

  /** The lines a registry entry contributes: nothing for a per-row CELEX
      source; label (when set), CELEX, URL and a blank line for a fixed one. */
  function StaticSourceLines(e: Entry): seq<SourceLine> {
    match e.source
    case CelexField => []
    case StaticCelex(celex, url, caption) =>
      (if caption != "" then [Caption(caption)] else []) + [CelexId(celex), Url(url), Blank]
  }

  function StaticLines(entries: seq<Entry>): seq<SourceLine> {
    Flatten(entries, StaticSourceLines)
  }

  /** `if celex` on `c.get("celex_consolidated")`: present and non-empty. */
  predicate HasCelex(c: Chunk) {
    c.celex.Some? && c.celex.value != ""
  }

  /** The CELEX numbers of the chunks, each once, in first-seen order. */
  function FirstSeen(chunks: seq<Chunk>): seq<string>
    decreases |chunks|
  {
    if chunks == [] then []
    else
      var front := FirstSeen(chunks[..|chunks| - 1]);
      var c := chunks[|chunks| - 1];
      if HasCelex(c) && c.celex.value !in front then front + [c.celex.value] else front
  }

  /** The three lines of one CELEX: the number, its EUR-Lex link, a blank line. */
  function CelexBlock(celex: string): seq<SourceLine> {
    [CelexId(celex), Url(EurlexLink(celex)), Blank]
  }

  function CelexLines(celexes: seq<string>): seq<SourceLine> {
    Flatten(celexes, CelexBlock)
  }

  function SourceLines(chunks: seq<Chunk>, entries: seq<Entry>): seq<SourceLine> {
    StaticLines(entries) + CelexLines(FirstSeen(chunks))
  }

  // ---------------------------------------------------------------------
  // Printed lines
  // ---------------------------------------------------------------------

  /** One `print` call of main.py. */
  datatype Line =
    | EmptyQuestion
    | Routing(intent: Intent, matches: seq<Match>)
    | CollateralFallback
    | DirectTextHeader
    | ChunkText(text: string)
    | Rule
    | SourcesOpening
    | SourcesTitle
    | SourceList(lines: seq<SourceLine>)
    | SourcesClosing
    | EmbeddingQuery(query: string)
    | EmbeddingError(message: string)
    | FilterFallback
    | NoResultsFound
    | AnswerHeader
    | AnswerText(answer: string)
    | LlmError(message: string)

  function Codes(matches: seq<Match>): seq<string> {
    seq(|matches|, k requires 0 <= k < |matches| => matches[k].code)
  }

  function Ids(matches: seq<Match>): seq<string> {
    seq(|matches|, k requires 0 <= k < |matches| => matches[k].entry.id)
  }

  function RoutingText(intent: Intent, matches: seq<Match>): string {
    "[routing] intent=" + IntentValue(intent)
    + " | code=" + (if matches != [] then JoinWith(",", Codes(matches)) else "-")
    + " | db=" + (if matches != [] then JoinWith(",", Ids(matches)) else "-")
  }

  /** The text a `print` call writes (without its final newline); a call
      with two arguments joins them with a space. */
  function LineText(l: Line): string {
    match l
    case EmptyQuestion => "Errore: domanda vuota."
    case Routing(intent, matches) => RoutingText(intent, matches)
    case CollateralFallback => "[routing] nessun risultato collaterale \U{2192} fallback vector search"
    case DirectTextHeader => "\n=== TESTO NORMATIVO ===\n"
    case ChunkText(t) => t
    case Rule => "\n---"
    case SourcesOpening => "\n---"
    case SourcesTitle => "FONTI NORMATIVE (deterministiche)\n"
    case SourceList(lines) => JoinWith("\n", SourceTexts(lines))
    case SourcesClosing => "---"
    case EmbeddingQuery(q) => "[normalization] embedding query: " + q
    case EmbeddingError(e) => "Errore embedding: " + e
    case FilterFallback => "[routing] nessun risultato con filtri=['ANNEX_CODE'] \U{2192} fallback global"
    case NoResultsFound => "Nessun risultato trovato."
    case AnswerHeader => "\n=== RISPOSTA ===\n"
    case AnswerText(a) => a
    case LlmError(e) => "Errore LLM: " + e
  }

  /** What `_print_normative_sources` prints: nothing when there is no line. */
  function SourcesOutput(chunks: seq<Chunk>, entries: seq<Entry>): seq<Line> {
    var lines := SourceLines(chunks, entries);
    if lines == [] then [] else [SourcesOpening, SourcesTitle, SourceList(lines), SourcesClosing]
  }

  /** `_print_normative_sources`: the fixed sources of the entries, in order,
      then each new chunk CELEX, with a `seen` set; the four prints only
      when some line was collected. */
  method PrintNormativeSources(chunks: seq<Chunk>, entries: seq<Entry>) returns (out: seq<Line>)
    ensures out == SourcesOutput(chunks, entries)
  {
    var lines := CollectStaticSources(entries);
    lines := CollectChunkCelexes(lines, chunks);
    if lines == [] {
      return [];
    }
    out := [SourcesOpening, SourcesTitle, SourceList(lines), SourcesClosing];
  }

  /** Part 1 of `_print_normative_sources`: the registry entries with a
      fixed CELEX, in the order given. */
  method CollectStaticSources(entries: seq<Entry>) returns (lines: seq<SourceLine>)
    ensures lines == StaticLines(entries)
  {
    lines := [];
    var i := 0;
    while i < |entries|
      invariant 0 <= i <= |entries|
      invariant lines == StaticLines(entries[..i])
    {
      var entry := entries[i];
      assert entries[..i + 1] == entries[..i] + [entry];
      FlattenSnoc(entries[..i], entry, StaticSourceLines);
      ghost var before := lines;
      if entry.source.StaticCelex? {
        if entry.source.labelText != "" {
          lines := lines + [Caption(entry.source.labelText)];
        }
        lines := lines + [CelexId(entry.source.celex)];
        lines := lines + [Url(entry.source.url)];
        lines := lines + [Blank];
      }
      assert lines == before + StaticSourceLines(entry);
      i := i + 1;
    }
    assert entries[..i] == entries;
  }

  /** Part 2 of `_print_normative_sources`: each chunk CELEX not seen before,
      appended to the lines collected so far. */
  method CollectChunkCelexes(lines0: seq<SourceLine>, chunks: seq<Chunk>) returns (lines: seq<SourceLine>)
    ensures lines == lines0 + CelexLines(FirstSeen(chunks))
  {
    lines := lines0;
    var seen: set<string> := {};
    var j := 0;
    while j < |chunks|
      invariant 0 <= j <= |chunks|
      invariant lines == lines0 + CelexLines(FirstSeen(chunks[..j]))
      invariant forall x :: x in seen <==> x in FirstSeen(chunks[..j])
    {
      var c := chunks[j];
      ghost var prev := FirstSeen(chunks[..j]);
      FirstSeenStep(chunks, j);
      if c.celex.Some? && c.celex.value != "" && c.celex.value !in seen {
        var celex := c.celex.value;
        assert FirstSeen(chunks[..j + 1]) == prev + [celex];
        seen := seen + {celex};
        FlattenSnoc(prev, celex, CelexBlock);
        AppendAssoc(lines0, CelexLines(prev), CelexBlock(celex));
        lines := PrintCelex(lines, celex);
      } else {
        assert FirstSeen(chunks[..j + 1]) == prev;
      }
      j := j + 1;
    }
    assert chunks[..j] == chunks;
  }

  /** The three prints for one CELEX: the number, its link, a blank line. */
  method PrintCelex(lines: seq<SourceLine>, celex: string) returns (lines': seq<SourceLine>)
    ensures lines' == lines + CelexBlock(celex)
  {
    lines' := lines + [CelexId(celex)];
    lines' := lines' + [Url(EurlexLink(celex))];
    lines' := lines' + [Blank];
  }

  /** One more chunk adds its CELEX to the list when it has one not yet seen. */
  lemma FirstSeenStep(chunks: seq<Chunk>, j: nat)
    requires j < |chunks|
    ensures var c := chunks[j];
      FirstSeen(chunks[..j + 1]) ==
        if HasCelex(c) && c.celex.value !in FirstSeen(chunks[..j]) then FirstSeen(chunks[..j]) + [c.celex.value]
        else FirstSeen(chunks[..j])
  {
    assert chunks[..j + 1][..j] == chunks[..j];
  }

  /** Each CELEX of the chunks is listed exactly once, and nothing else is. */
  lemma {:induction false} FirstSeenIsDedup(chunks: seq<Chunk>)
    ensures forall a, b :: 0 <= a < b < |FirstSeen(chunks)| ==> FirstSeen(chunks)[a] != FirstSeen(chunks)[b]
    ensures forall x :: x in FirstSeen(chunks) <==> exists c :: c in chunks && HasCelex(c) && c.celex.value == x
    decreases |chunks|
  {
    if chunks != [] {
      var front := chunks[..|chunks| - 1];
      var c := chunks[|chunks| - 1];
      FirstSeenIsDedup(front);
      assert chunks == front + [c];
      forall x | x in FirstSeen(chunks) ensures exists d :: d in chunks && HasCelex(d) && d.celex.value == x {
        if x in FirstSeen(front) {
          var d :| d in front && HasCelex(d) && d.celex.value == x;
          assert d in chunks;
        } else {
          assert c in chunks;
        }
      }
      forall x | exists d :: d in chunks && HasCelex(d) && d.celex.value == x ensures x in FirstSeen(chunks) {
        var d :| d in chunks && HasCelex(d) && d.celex.value == x;
        if d in front {
          assert x in FirstSeen(front);
        }
      }
    }
  }

  /** Later chunks never reorder what was seen first: the list for a longer
      input extends the list for its prefix. */
  lemma {:induction false} FirstSeenExtends(chunks: seq<Chunk>, more: seq<Chunk>)
    ensures |FirstSeen(chunks)| <= |FirstSeen(chunks + more)|
    ensures FirstSeen(chunks + more)[..|FirstSeen(chunks)|] == FirstSeen(chunks)
    decreases |more|
  {
    if more == [] {
      assert chunks + more == chunks;
    } else {
      var front := more[..|more| - 1];
      FirstSeenExtends(chunks, front);
      assert (chunks + more)[..|chunks + more| - 1] == chunks + front;
    }
  }

  /** Each CELEX gets its own three lines, in list order: the CELEX line,
      its EUR-Lex link, and a blank line. */
  lemma {:induction false} CelexLinesShape(celexes: seq<string>)
    ensures |CelexLines(celexes)| == 3 * |celexes|
    ensures forall k :: 0 <= k < |celexes| ==>
      && CelexLines(celexes)[3 * k] == CelexId(celexes[k])
      && CelexLines(celexes)[3 * k + 1] == Url(EurlexLink(celexes[k]))
      && CelexLines(celexes)[3 * k + 2] == Blank
    decreases |celexes|
  {
    if celexes != [] {
      var front := celexes[..|celexes| - 1];
      CelexLinesShape(front);
      assert CelexLines(celexes) == CelexLines(front) + CelexBlock(celexes[|celexes| - 1]);
      forall k | 0 <= k < |front|
        ensures celexes[k] == front[k]
      {
      }
    }
  }

  /** An entry whose CELEX comes from the rows adds nothing, wherever it sits. */
  lemma CelexFieldEntryAddsNothing(a: seq<Entry>, e: Entry, b: seq<Entry>)
    requires e.source.CelexField?
    ensures StaticLines(a + [e] + b) == StaticLines(a + b)
  {
    FlattenAppend(a + [e], b, StaticSourceLines);
    FlattenSnoc(a, e, StaticSourceLines);
    FlattenAppend(a, b, StaticSourceLines);
    assert StaticLines(a + [e]) == StaticLines(a);
  }

  /** No static line exactly when every entry takes its CELEX from the rows. */
  lemma StaticLinesEmpty(entries: seq<Entry>)
    ensures StaticLines(entries) == [] <==> forall e :: e in entries ==> e.source.CelexField?
  {
    FlattenEmpty(entries, StaticSourceLines);
  }

  /** No CELEX is collected exactly when no chunk carries one. */
  lemma {:induction false} FirstSeenEmpty(chunks: seq<Chunk>)
    ensures FirstSeen(chunks) == [] <==> forall c :: c in chunks ==> !HasCelex(c)
    decreases |chunks|
  {
    if chunks != [] {
      var front := chunks[..|chunks| - 1];
      FirstSeenEmpty(front);
      assert chunks == front + [chunks[|chunks| - 1]];
    }
  }

  /** Nothing at all is printed exactly when no entry has a fixed source and
      no chunk carries a CELEX. */
  lemma SourcesSilent(chunks: seq<Chunk>, entries: seq<Entry>)
    ensures SourcesOutput(chunks, entries) == []
        <==> (forall e :: e in entries ==> e.source.CelexField?) && (forall c :: c in chunks ==> !HasCelex(c))
  {
    StaticLinesEmpty(entries);
    FirstSeenEmpty(chunks);
    var cs := FirstSeen(chunks);
    if cs != [] {
      FlattenSnoc(cs[..|cs| - 1], cs[|cs| - 1], CelexBlock);
      assert cs[..|cs| - 1] + [cs[|cs| - 1]] == cs;
    }
  }

  // ---------------------------------------------------------------------
  // Direct text
  // ---------------------------------------------------------------------

  /** The two prints for one chunk: its text, then a rule. */
  function ChunkLines(c: Chunk): seq<Line> {
    [ChunkText(c.text), Rule]
  }

  function TextLines(chunks: seq<Chunk>): seq<Line> {
    Flatten(chunks, ChunkLines)
  }

  function DirectTextLines(chunks: seq<Chunk>): seq<Line> {
    [DirectTextHeader] + TextLines(chunks)
  }

  /** `_display_direct_text`: a header, then each chunk's text followed by a rule. */
  method DisplayDirectText(chunks: seq<Chunk>) returns (out: seq<Line>)
    ensures out == DirectTextLines(chunks)
  {
    out := [DirectTextHeader];
    var i := 0;
    while i < |chunks|
      invariant 0 <= i <= |chunks|
      invariant out == [DirectTextHeader] + TextLines(chunks[..i])
    {
      assert chunks[..i + 1] == chunks[..i] + [chunks[i]];
      FlattenSnoc(chunks[..i], chunks[i], ChunkLines);
      AppendAssoc([DirectTextHeader], TextLines(chunks[..i]), ChunkLines(chunks[i]));
      ghost var before := out;
      out := out + [ChunkText(chunks[i].text)];
      out := out + [Rule];
      assert out == before + ChunkLines(chunks[i]);
      i := i + 1;
    }
    assert chunks[..i] == chunks;
  }

  /** The direct text shows every chunk, in order: after the header, the
      text of chunk k is line 2k+1 and a rule follows it. */
  lemma {:induction false} DirectTextShape(chunks: seq<Chunk>)
    ensures |DirectTextLines(chunks)| == 1 + 2 * |chunks|
    ensures DirectTextLines(chunks)[0] == DirectTextHeader
    ensures forall k :: 0 <= k < |chunks| ==>
      DirectTextLines(chunks)[1 + 2 * k] == ChunkText(chunks[k].text) && DirectTextLines(chunks)[2 + 2 * k] == Rule
    decreases |chunks|
  {
    if chunks != [] {
      var front := chunks[..|chunks| - 1];
      DirectTextShape(front);
      assert TextLines(chunks) == TextLines(front) + ChunkLines(chunks[|chunks| - 1]);
      forall k | 0 <= k < |front|
        ensures chunks[k] == front[k]
      {
      }
    }
  }

  // ---------------------------------------------------------------------
  // Collateral lookups
  // ---------------------------------------------------------------------

  /** Evidence and active entries after looking up every match in order:
      rows are concatenated, and an entry is kept when its lookup found rows. */
  function Collected(matches: seq<Match>, lookup: (Entry, string) -> seq<Chunk>): (seq<Chunk>, seq<Entry>)
    decreases |matches|
  {
    if matches == [] then ([], [])
    else
      var front := Collected(matches[..|matches| - 1], lookup);
      var m := matches[|matches| - 1];
      var results := lookup(m.entry, m.code);
      if results != [] then (front.0 + results, front.1 + [m.entry]) else front
  }

  /** All lookup results, concatenated in match order. */
  function AllResults(matches: seq<Match>, lookup: (Entry, string) -> seq<Chunk>): seq<Chunk>
    decreases |matches|
  {
    if matches == [] then []
    else
      var m := matches[|matches| - 1];
      AllResults(matches[..|matches| - 1], lookup) + lookup(m.entry, m.code)
  }

  /** The loop of main.py that looks up each match and keeps the entries
      that produced rows. */
  method CollectCollateral(matches: seq<Match>, lookup: (Entry, string) -> seq<Chunk>)
    returns (chunks: seq<Chunk>, active: seq<Entry>)
    ensures (chunks, active) == Collected(matches, lookup)
  {
    chunks := [];
    active := [];
    var i := 0;
    while i < |matches|
      invariant 0 <= i <= |matches|
      invariant (chunks, active) == Collected(matches[..i], lookup)
    {
      var m := matches[i];
      assert matches[..i + 1][..i] == matches[..i];
      var results := lookup(m.entry, m.code);
      if results != [] {
        chunks := chunks + results;
        active := active + [m.entry];
      }
      i := i + 1;
    }
    assert matches[..i] == matches;
  }

  /** One more match adds its rows and its entry when its lookup found rows. */
  lemma CollectedStep(matches: seq<Match>, lookup: (Entry, string) -> seq<Chunk>, m: Match)
    ensures var f := Collected(matches, lookup);
      Collected(matches + [m], lookup) ==
        if lookup(m.entry, m.code) != [] then (f.0 + lookup(m.entry, m.code), f.1 + [m.entry]) else f
    ensures AllResults(matches + [m], lookup) == AllResults(matches, lookup) + lookup(m.entry, m.code)
  {
    assert (matches + [m])[..|matches|] == matches;
  }

  /** The evidence is every lookup's rows, concatenated in match order, and
      there is evidence exactly when some entry is active. */
  lemma {:induction false} CollectedEvidence(matches: seq<Match>, lookup: (Entry, string) -> seq<Chunk>)
    ensures Collected(matches, lookup).0 == AllResults(matches, lookup)
    ensures Collected(matches, lookup).0 == [] <==> Collected(matches, lookup).1 == []
    decreases |matches|
  {
    if matches != [] {
      var front := matches[..|matches| - 1];
      var m := matches[|matches| - 1];
      assert matches == front + [m];
      CollectedEvidence(front, lookup);
      CollectedStep(front, lookup, m);
    }
  }

  /** The active entries are the matched entries in match order, some left out. */
  lemma {:induction false} CollectedKeepsOrder(matches: seq<Match>, lookup: (Entry, string) -> seq<Chunk>)
    ensures SubsequenceOf(Collected(matches, lookup).1, EntriesOf(matches))
    decreases |matches|
  {
    if matches != [] {
      var front := matches[..|matches| - 1];
      var m := matches[|matches| - 1];
      assert matches == front + [m];
      CollectedKeepsOrder(front, lookup);
      CollectedStep(front, lookup, m);
      assert EntriesOf(matches) == EntriesOf(front) + [m.entry];
      if lookup(m.entry, m.code) == [] {
        SubsequenceExtend(Collected(front, lookup).1, EntriesOf(front), m.entry);
      }
    }
  }

  /** An entry is active exactly when some match of it had a non-empty lookup. */
  lemma {:induction false} CollectedActive(matches: seq<Match>, lookup: (Entry, string) -> seq<Chunk>)
    ensures forall e :: e in Collected(matches, lookup).1 <==>
              exists k :: 0 <= k < |matches| && matches[k].entry == e && lookup(e, matches[k].code) != []
    decreases |matches|
  {
    if matches != [] {
      var front := matches[..|matches| - 1];
      var m := matches[|matches| - 1];
      assert matches == front + [m];
      CollectedActive(front, lookup);
      CollectedStep(front, lookup, m);
      var r := Collected(matches, lookup);
      var f := Collected(front, lookup);
      forall e | e in r.1 ensures exists k :: 0 <= k < |matches| && matches[k].entry == e && lookup(e, matches[k].code) != [] {
        if e in f.1 {
          var k :| 0 <= k < |front| && front[k].entry == e && lookup(e, front[k].code) != [];
          assert matches[k] == front[k];
        } else {
          assert matches[|matches| - 1] == m;
        }
      }
      forall e | exists k :: 0 <= k < |matches| && matches[k].entry == e && lookup(e, matches[k].code) != []
        ensures e in r.1
      {
        var k :| 0 <= k < |matches| && matches[k].entry == e && lookup(e, matches[k].code) != [];
        if k < |front| {
          assert front[k] == matches[k];
        }
      }
    }
  }

  // ---------------------------------------------------------------------
  // The run
  // ---------------------------------------------------------------------

  /** The collaborators of a run. `getEmbedding` and `generateAnswer` give
      Err with the exception text for the errors main.py catches
      (`Exception` for the embedding; APIError and APIConnectionError for the
      answer). `maxContextChars` is MAX_CONTEXT_CHARS. */
  datatype Services = Services(
    lookupCollateral: (Entry, string) -> seq<Chunk>,
    vectorSearch: (seq<real>, Option<seq<string>>) -> seq<Chunk>,
    getEmbedding: string -> Result<seq<real>, string>,
    generateAnswer: (string, string) -> Result<string, string>,
    maxContextChars: int)

  /** A call to a collaborator, in call order. */
  datatype Call =
    | Lookup(entry: Entry, code: string)
    | Embed(text: string)
    | VectorSearch(filters: Option<seq<string>>)
    | Generate(question: string, context: string)

  /** How a run ends: returning after the direct text or after an answer,
      or `sys.exit(0)` with no results, or `sys.exit(1)` on an error. */
  datatype Terminal = DirectText | Answer | NoResults | Failed

  function ExitCode(t: Terminal): Option<int> {
    match t
    case DirectText => None
    case Answer => None
    case NoResults => Some(0)
    case Failed => Some(1)
  }

  datatype Outcome = Outcome(printed: seq<Line>, calls: seq<Call>, terminal: Terminal)

  const ANNEX_CODE_FILTERS: seq<string> := ["ANNEX_CODE"]

  /** `(question or "").strip()` */
  function Stripped(question: Option<string>): string {
    Strip(if question.None? then "" else question.value)
  }

  /** The intent a run follows: a registry match turns every intent but
      PROCEDURAL into CODE_SPECIFIC. */
  function FinalIntent(base: Intent, matches: seq<Match>): Intent {
    if matches != [] then (if base == Procedural then Procedural else CodeSpecific) else base
  }

  function LookupCalls(matches: seq<Match>): (r: seq<Call>)
    ensures |r| == |matches|
    ensures forall k :: 0 <= k < |matches| ==> r[k] == Lookup(matches[k].entry, matches[k].code)
  {
    seq(|matches|, k requires 0 <= k < |matches| => Lookup(matches[k].entry, matches[k].code))
  }

  function TooLongMessage(length: nat, limit: int): string {
    "Contesto troppo lungo (" + NatToString(length) + " caratteri). Limite: " + IntToString(limit)
    + ". Ridurre TOP_K o MAX_CONTEXT_CHARS."
  }

  /** `llm.generate_answer` as seen from the pipeline: the length guard
      raises ValueError before the model is called. */
  function GenerateAnswer(s: Services, question: string, context: string): (r: Result<string, string>)
    ensures |context| > s.maxContextChars ==> r == Err(TooLongMessage(|context|, s.maxContextChars))
    ensures |context| <= s.maxContextChars ==> r == s.generateAnswer(question, context)
  {
    if |context| > s.maxContextChars then Err(TooLongMessage(|context|, s.maxContextChars))
    else s.generateAnswer(question, context)
  }

  /** `_run_llm_and_print`: the printed lines, the call made, and the error
      raised if any. Nothing is printed when the answer fails. */
  function LlmStage(question: string, chunks: seq<Chunk>, entries: seq<Entry>, s: Services)
    : (seq<Line>, Call, Option<string>)
  {
    var context := ContextText(chunks);
    match GenerateAnswer(s, question, context)
    case Err(e) => ([], Generate(question, context), Some(e))
    case Ok(answer) => ([AnswerHeader, AnswerText(answer)] + SourcesOutput(chunks, entries), Generate(question, context), None)
  }

  method RunLlmAndPrint(question: string, chunks: seq<Chunk>, entries: seq<Entry>, s: Services)
    returns (out: seq<Line>, call: Call, failure: Option<string>)
    ensures (out, call, failure) == LlmStage(question, chunks, entries, s)
  {
    var context := FormatContext(chunks);
    call := Generate(question, context);
    var answer := GenerateAnswer(s, question, context);
    if answer.Err? {
      return [], call, Some(answer.error);
    }
    out := [AnswerHeader, AnswerText(answer.value)];
    var sources := PrintNormativeSources(chunks, entries);
    out := out + sources;
    failure := None;
  }

  /** The end of every branch that reaches the model: no evidence exits 0,
      an answer error exits 1, otherwise the answer and its sources. */
  function Answering(question: string, chunks: seq<Chunk>, entries: seq<Entry>, s: Services,
                     printed: seq<Line>, calls: seq<Call>): Outcome
  {
    if chunks == [] then Outcome(printed + [NoResultsFound], calls, NoResults)
    else
      var (out, call, failure) := LlmStage(question, chunks, entries, s);
      if failure.Some? then Outcome(printed + out + [LlmError(failure.value)], calls + [call], Failed)
      else Outcome(printed + out, calls + [call], Answer)
  }

  /** Step 5: collateral rows of every match, then one global vector search;
      the model sees the collateral rows first. */
  function ProceduralBranch(q: string, matches: seq<Match>, embedding: seq<real>, s: Services,
                            printed: seq<Line>, calls: seq<Call>): Outcome
  {
    var (collateral, active) := Collected(matches, s.lookupCollateral);
    var vec := s.vectorSearch(embedding, None);
    Answering(q, collateral + vec, active, s, printed, calls + LookupCalls(matches) + [VectorSearch(None)])
  }

  /** Step 6: a search filtered on ANNEX_CODE for CLASSIFICATION (retried
      once without filter when empty), a global search otherwise. */
  function VectorBranch(q: string, intent: Intent, embedding: seq<real>, s: Services,
                        printed: seq<Line>, calls: seq<Call>): Outcome
  {
    var filters := if intent == Classification then Some(ANNEX_CODE_FILTERS) else None;
    var first := s.vectorSearch(embedding, filters);
    if first == [] && filters.Some? then
      Answering(q, s.vectorSearch(embedding, None), [], s, printed + [FilterFallback],
                calls + [VectorSearch(filters)] + [VectorSearch(None)])
    else Answering(q, first, [], s, printed, calls + [VectorSearch(filters)])
  }

  /** Everything after the CODE_SPECIFIC branch: normalisation, embedding,
      then the PROCEDURAL+code or the vector-only branch. */
  function Embedded(q: string, intent: Intent, matches: seq<Match>, s: Services,
                    printed: seq<Line>, calls: seq<Call>): Outcome
  {
    var nq := NormalizeQuery(q, intent);
    var printed1 := printed + [EmbeddingQuery(nq)];
    var calls1 := calls + [Embed(nq)];
    match s.getEmbedding(nq)
    case Err(e) => Outcome(printed1 + [EmbeddingError(e)], calls1, Failed)
    case Ok(embedding) =>
      if intent == Procedural && matches != [] then ProceduralBranch(q, matches, embedding, s, printed1, calls1)
      else VectorBranch(q, intent, embedding, s, printed1, calls1)
  }

  /** Step 3: the collateral rows of every match. With evidence, the direct
      text and its sources end the run; without, the run falls back to the
      GENERIC branch. */
  function CodeSpecificBranch(q: string, matches: seq<Match>, s: Services, printed: seq<Line>): Outcome {
    var (chunks, active) := Collected(matches, s.lookupCollateral);
    if chunks == [] then
      Embedded(q, Generic, matches, s, printed + [CollateralFallback], LookupCalls(matches))
    else
      Outcome(printed + DirectTextLines(chunks) + SourcesOutput(chunks, active), LookupCalls(matches), DirectText)
  }

  /** The run once the final intent is known: the routing line, then step 3
      for CODE_SPECIFIC and steps 4 to 6 for the other intents. */
  function Dispatch(q: string, intent: Intent, matches: seq<Match>, s: Services): Outcome {
    var routing := Routing(intent, matches);
    if intent == CodeSpecific then CodeSpecificBranch(q, matches, s, [routing])
    else Embedded(q, intent, matches, s, [routing], [])
  }

  /** `run(question)` as a value. */
  function RunSpec(question: Option<string>, s: Services): Outcome {
    Started(Stripped(question), s)
  }

  /** The final intent of a stripped, non-blank question. */
  function RunIntent(q: string): Intent {
    FinalIntent(DetectIntent(Some(q)), Detect(Some(q)))
  }

  /** The run after the question is stripped. */
  function Started(q: string, s: Services): Outcome {
    if q == "" then Outcome([EmptyQuestion], [], Failed)
    else Dispatch(q, RunIntent(q), Detect(Some(q)), s)
  }

  /** `run`: the pipeline as main.py writes it. */
  method Run(question: Option<string>, s: Services) returns (printed: seq<Line>, calls: seq<Call>, terminal: Terminal)
    ensures Outcome(printed, calls, terminal) == RunSpec(question, s)
  {
    var q := Strip(if question.None? then "" else question.value);
    if q == "" {
      return [EmptyQuestion], [], Failed;
    }

    // 1. Intent and registry scan.
    var baseIntent := DetectIntent(Some(q));
    var registryMatches := DetectCodeFromRegistry(Some(q));

    // 2. Final intent.
    var intent := FinalIntent(baseIntent, registryMatches);
    assert RunSpec(question, s) == Dispatch(q, intent, registryMatches, s);
    printed := [Routing(intent, registryMatches)];
    calls := [];

    // 3. CODE_SPECIFIC: collateral lookup, direct text, no model.
    if intent == CodeSpecific {
      var chunks, active := CollectCollateral(registryMatches, s.lookupCollateral);
      calls := LookupCalls(registryMatches);
      if chunks == [] {
        printed := printed + [CollateralFallback];
        intent := Generic;
      } else {
        var shown := DisplayDirectText(chunks);
        var sources := PrintNormativeSources(chunks, active);
        printed := printed + shown + sources;
        return printed, calls, DirectText;
      }
    }
    printed, calls, terminal := EmbedAndAnswer(q, intent, registryMatches, s, printed, calls);
  }

  /** Steps 4 to 6 of `run`: the embedding of the normalised query, then
      the PROCEDURAL+code branch or the vector-only one. */
  method EmbedAndAnswer(q: string, intent: Intent, registryMatches: seq<Match>, s: Services,
                        printed0: seq<Line>, calls0: seq<Call>)
    returns (printed: seq<Line>, calls: seq<Call>, terminal: Terminal)
    ensures Outcome(printed, calls, terminal) == Embedded(q, intent, registryMatches, s, printed0, calls0)
  {
    // 4. Embedding.
    var normalizedQuery := NormalizeQuery(q, intent);
    printed := printed0 + [EmbeddingQuery(normalizedQuery)];
    calls := calls0 + [Embed(normalizedQuery)];
    var embedding := s.getEmbedding(normalizedQuery);
    if embedding.Err? {
      printed := printed + [EmbeddingError(embedding.error)];
      return printed, calls, Failed;
    }

    // 5. PROCEDURAL with a code: collateral rows, then vector rows.
    if intent == Procedural && registryMatches != [] {
      var collateral, active := CollectCollateral(registryMatches, s.lookupCollateral);
      calls := calls + LookupCalls(registryMatches);
      var vecChunks := s.vectorSearch(embedding.value, None);
      calls := calls + [VectorSearch(None)];
      var combined := collateral + vecChunks;
      printed, calls, terminal := FinishWithAnswer(q, combined, active, s, printed, calls);
      return;
    }

    // 6. CLASSIFICATION / GENERIC: vector search only.
    var typeFilters := if intent == Classification then Some(ANNEX_CODE_FILTERS) else None;
    var chunks := s.vectorSearch(embedding.value, typeFilters);
    calls := calls + [VectorSearch(typeFilters)];
    if chunks == [] && typeFilters.Some? {
      printed := printed + [FilterFallback];
      chunks := s.vectorSearch(embedding.value, None);
      calls := calls + [VectorSearch(None)];
    }
    printed, calls, terminal := FinishWithAnswer(q, chunks, [], s, printed, calls);
  }

  /** The shared tail of steps 5 and 6: exit 0 without evidence, otherwise
      the model call, with exit 1 on its errors. */
  method FinishWithAnswer(question: string, chunks: seq<Chunk>, entries: seq<Entry>, s: Services,
                          printed0: seq<Line>, calls0: seq<Call>)
    returns (printed: seq<Line>, calls: seq<Call>, terminal: Terminal)
    ensures Outcome(printed, calls, terminal) == Answering(question, chunks, entries, s, printed0, calls0)
  {
    printed, calls := printed0, calls0;
    if chunks == [] {
      printed := printed + [NoResultsFound];
      return printed, calls, NoResults;
    }
    var out, call, failure := RunLlmAndPrint(question, chunks, entries, s);
    printed := printed + out;
    calls := calls + [call];
    if failure.Some? {
      printed := printed + [LlmError(failure.value)];
      return printed, calls, Failed;
    }
    terminal := Answer;
  }

  // ---------------------------------------------------------------------
  // Properties of a run
  // ---------------------------------------------------------------------

  /** A blank question is refused with exit code 1 before any detection or
      collaborator call. */
  lemma BlankQuestionRefused(question: Option<string>, s: Services)
    requires Stripped(question) == ""
    ensures RunSpec(question, s).printed == [EmptyQuestion]
    ensures RunSpec(question, s).calls == []
    ensures ExitCode(RunSpec(question, s).terminal) == Some(1)
  {
  }

  /** A question the keyword ladder calls CODE_SPECIFIC always has a registry
      match: its digit-letter-3-digit code is the dual-use pattern. */
  lemma CodeIntentHasMatches(q: string)
    requires q != ""
    requires DetectIntent(Some(q)) == CodeSpecific
    ensures Detect(Some(q)) != []
    ensures DUAL_USE in EntriesOf(Detect(Some(q)))
  {
    CodeWins(q);
    DetectMatchesOccurrences(q);
    assert DUAL_USE in REGISTRY;
  }

  /** The final-intent rule: CODE_SPECIFIC exactly when the registry matched
      and the keyword intent is not PROCEDURAL; otherwise the keyword intent
      stands. */
  lemma FinalIntentOfQuery(q: string)
    requires q != ""
    ensures RunIntent(q) == CodeSpecific <==> Detect(Some(q)) != [] && DetectIntent(Some(q)) != Procedural
    ensures RunIntent(q) != CodeSpecific ==> RunIntent(q) == DetectIntent(Some(q))
  {
    if DetectIntent(Some(q)) == CodeSpecific {
      CodeIntentHasMatches(q);
    }
  }

  /** PROCEDURAL with a registry match happens only through a bare 4-10
      digit code: the match list is then the nomenclature and correlation
      entries, with the same code. */
  lemma ProceduralMatchesAreNumeric(q: string)
    requires q != ""
    requires DetectIntent(Some(q)) == Procedural && Detect(Some(q)) != []
    ensures exists c :: Detect(Some(q)) == [Match(NOMENCLATURE, c), Match(DUAL_USE_CORRELATIONS, c)]
  {
    CodeWins(q);
    FoundIffOccurs(CodeShape, q);
    DetectShape(q);
    var c := Upper(Search(DigitRun(4, 10), q).value);
    assert Detect(Some(q)) == [Match(NOMENCLATURE, c), Match(DUAL_USE_CORRELATIONS, c)];
  }

  predicate IsErrorLine(l: Line) {
    l.EmptyQuestion? || l.EmbeddingError? || l.LlmError?
  }

  predicate NoModelCall(calls: seq<Call>) {
    forall c :: c in calls ==> !c.Generate?
  }

  /** How a run ends: its last printed line announces the terminal state (an
      error line exactly for exit 1, "Nessun risultato trovato." exactly for
      exit 0), and the model is called at most once, as the last call, with
      the question and a non-empty context; an answer always comes from it. */
  predicate WellEnded(o: Outcome, q: string) {
    && o.printed != []
    && (o.terminal == Failed <==> IsErrorLine(o.printed[|o.printed| - 1]))
    && (o.terminal == NoResults <==> o.printed[|o.printed| - 1] == NoResultsFound)
    && (forall k :: 0 <= k < |o.calls| && o.calls[k].Generate? ==>
          k == |o.calls| - 1 && o.calls[k].question == q && o.calls[k].context != "")
    && (o.terminal == Answer ==> o.calls != [] && o.calls[|o.calls| - 1].Generate?)
  }

  /** What `_print_normative_sources` prints ends with its closing rule. */
  lemma SourcesOutputEnding(chunks: seq<Chunk>, entries: seq<Entry>)
    ensures var out := SourcesOutput(chunks, entries);
      out == [] || out[|out| - 1] == SourcesClosing
  {
  }

  /** The last line printed at the end of a branch: "Nessun risultato
      trovato." without evidence, the error after a failed model call, and
      the answer or the closing rule of its sources otherwise. */
  lemma AnsweringLastLine(question: string, chunks: seq<Chunk>, entries: seq<Entry>, s: Services,
                          printed: seq<Line>, calls: seq<Call>)
    ensures var o := Answering(question, chunks, entries, s, printed, calls);
      var last := o.printed[|o.printed| - 1];
      && o.printed != []
      && (o.terminal == NoResults ==> last == NoResultsFound)
      && (o.terminal == Failed ==> last.LlmError?)
      && (o.terminal == Answer ==> last.AnswerText? || last == SourcesClosing)
      && o.terminal != DirectText
  {
    var o := Answering(question, chunks, entries, s, printed, calls);
    if chunks == [] {
      assert o == Outcome(printed + [NoResultsFound], calls, NoResults);
    } else {
      var context := ContextText(chunks);
      var call := Generate(question, context);
      var answer := GenerateAnswer(s, question, context);
      if answer.Err? {
        assert LlmStage(question, chunks, entries, s) == ([], call, Some(answer.error));
        assert o == Outcome(printed + [LlmError(answer.error)], calls + [call], Failed);
      } else {
        var sources := SourcesOutput(chunks, entries);
        SourcesOutputEnding(chunks, entries);
        var out := [AnswerHeader, AnswerText(answer.value)] + sources;
        assert LlmStage(question, chunks, entries, s) == (out, call, None);
        assert o == Outcome(printed + out, calls + [call], Answer);
        assert out[|out| - 1].AnswerText? || out[|out| - 1] == SourcesClosing;
      }
    }
  }

  lemma AnsweringWellEnded(question: string, chunks: seq<Chunk>, entries: seq<Entry>, s: Services,
                           printed: seq<Line>, calls: seq<Call>)
    requires NoModelCall(calls)
    ensures WellEnded(Answering(question, chunks, entries, s, printed, calls), question)
    ensures Answering(question, chunks, entries, s, printed, calls).terminal != DirectText
  {
    var o := Answering(question, chunks, entries, s, printed, calls);
    AnsweringCalls(question, chunks, entries, s, printed, calls);
    AnsweringLastLine(question, chunks, entries, s, printed, calls);
    EndsWell(o, question, calls, chunks);
  }

  /** The facts of a branch end that make a run end well. */
  lemma EndsWell(o: Outcome, q: string, calls: seq<Call>, rows: seq<Chunk>)
    requires NoModelCall(calls)
    requires o.calls == calls + ModelCall(q, rows)
    requires o.terminal == NoResults <==> rows == []
    requires o.printed != []
    requires o.terminal == NoResults ==> o.printed[|o.printed| - 1] == NoResultsFound
    requires o.terminal == Failed ==> o.printed[|o.printed| - 1].LlmError?
    requires o.terminal == Answer ==> o.printed[|o.printed| - 1].AnswerText? || o.printed[|o.printed| - 1] == SourcesClosing
    requires o.terminal != DirectText
    ensures WellEnded(o, q)
  {
    ModelCallOnly(q, rows, calls);
  }

  /** A trace without model call, followed by `ModelCall`, calls the model at
      most once, last, with the question and a non-empty context. */
  lemma ModelCallOnly(question: string, rows: seq<Chunk>, calls: seq<Call>)
    requires NoModelCall(calls)
    ensures var t := calls + ModelCall(question, rows);
      forall k :: 0 <= k < |t| && t[k].Generate? ==>
        k == |t| - 1 && t[k].question == question && t[k].context != ""
    ensures rows != [] ==> (calls + ModelCall(question, rows))[|calls|].Generate?
  {
    if rows != [] {
      ContextStartsWithFirstHeader(rows);
      LastModelCall(calls, Generate(question, ContextText(rows)));
    } else {
      assert calls + ModelCall(question, rows) == calls;
    }
  }

  /** Appending one model call to a trace without any keeps it the only one,
      and the last. */
  lemma LastModelCall(calls: seq<Call>, call: Call)
    requires NoModelCall(calls)
    ensures forall k :: 0 <= k < |calls + [call]| && (calls + [call])[k].Generate? ==> k == |calls|
  {
    forall k | 0 <= k < |calls| ensures !(calls + [call])[k].Generate? {
      assert (calls + [call])[k] == calls[k] && calls[k] in calls;
    }
  }

  lemma ProceduralBranchWellEnded(q: string, matches: seq<Match>, embedding: seq<real>, s: Services,
                                  printed: seq<Line>, calls: seq<Call>)
    requires NoModelCall(calls)
    ensures WellEnded(ProceduralBranch(q, matches, embedding, s, printed, calls), q)
    ensures ProceduralBranch(q, matches, embedding, s, printed, calls).terminal != DirectText
  {
    var (collateral, active) := Collected(matches, s.lookupCollateral);
    var calls1 := calls + LookupCalls(matches) + [VectorSearch(None)];
    assert NoModelCall(calls1);
    AnsweringWellEnded(q, collateral + s.vectorSearch(embedding, None), active, s, printed, calls1);
  }

  lemma VectorBranchWellEnded(q: string, intent: Intent, embedding: seq<real>, s: Services,
                              printed: seq<Line>, calls: seq<Call>)
    requires NoModelCall(calls)
    ensures WellEnded(VectorBranch(q, intent, embedding, s, printed, calls), q)
    ensures VectorBranch(q, intent, embedding, s, printed, calls).terminal != DirectText
  {
    var filters := if intent == Classification then Some(ANNEX_CODE_FILTERS) else None;
    var calls1 := calls + [VectorSearch(filters)];
    assert NoModelCall(calls1);
    assert NoModelCall(calls1 + [VectorSearch(None)]);
    AnsweringWellEnded(q, s.vectorSearch(embedding, None), [], s, printed + [FilterFallback], calls1 + [VectorSearch(None)]);
    AnsweringWellEnded(q, s.vectorSearch(embedding, filters), [], s, printed, calls1);
  }

  lemma EmbeddedWellEnded(q: string, intent: Intent, matches: seq<Match>, s: Services,
                          printed: seq<Line>, calls: seq<Call>)
    requires NoModelCall(calls)
    ensures WellEnded(Embedded(q, intent, matches, s, printed, calls), q)
    ensures Embedded(q, intent, matches, s, printed, calls).terminal != DirectText
  {
    var nq := NormalizeQuery(q, intent);
    var printed1 := printed + [EmbeddingQuery(nq)];
    var calls1 := calls + [Embed(nq)];
    assert NoModelCall(calls1);
    match s.getEmbedding(nq)
    case Err(_) =>
    case Ok(embedding) =>
      ProceduralBranchWellEnded(q, matches, embedding, s, printed1, calls1);
      VectorBranchWellEnded(q, intent, embedding, s, printed1, calls1);
  }

  /** The direct text ends with a rule or with the sources, never with an
      error or "no results" line. */
  lemma DirectTextEnding(chunks: seq<Chunk>, sources: seq<Line>, printed: seq<Line>)
    requires chunks != []
    requires sources == [] || sources[|sources| - 1] == SourcesClosing
    ensures var p := printed + DirectTextLines(chunks) + sources;
      p != [] && (p[|p| - 1] == Rule || p[|p| - 1] == SourcesClosing)
  {
    var front := chunks[..|chunks| - 1];
    assert chunks == front + [chunks[|chunks| - 1]];
    FlattenSnoc(front, chunks[|chunks| - 1], ChunkLines);
  }

  /** Step 3 shows the direct text exactly when the lookups found rows, and
      then calls nothing but those lookups. */
  lemma CodeSpecificBranchEnds(q: string, matches: seq<Match>, s: Services, printed: seq<Line>)
    ensures WellEnded(CodeSpecificBranch(q, matches, s, printed), q)
    ensures CodeSpecificBranch(q, matches, s, printed).terminal == DirectText
        <==> Collected(matches, s.lookupCollateral).0 != []
    ensures CodeSpecificBranch(q, matches, s, printed).terminal == DirectText
        ==> CodeSpecificBranch(q, matches, s, printed).calls == LookupCalls(matches)
  {
    var (chunks, active) := Collected(matches, s.lookupCollateral);
    assert NoModelCall(LookupCalls(matches));
    if chunks == [] {
      EmbeddedWellEnded(q, Generic, matches, s, printed + [CollateralFallback], LookupCalls(matches));
    } else {
      SourcesOutputEnding(chunks, active);
      DirectTextEnding(chunks, SourcesOutput(chunks, active), printed);
    }
  }

  lemma DispatchEnds(q: string, intent: Intent, matches: seq<Match>, s: Services)
    ensures WellEnded(Dispatch(q, intent, matches, s), q)
    ensures Dispatch(q, intent, matches, s).terminal == DirectText
        <==> intent == CodeSpecific && Collected(matches, s.lookupCollateral).0 != []
    ensures Dispatch(q, intent, matches, s).terminal == DirectText
        ==> Dispatch(q, intent, matches, s).calls == LookupCalls(matches)
  {
    var routing := Routing(intent, matches);
    if intent == CodeSpecific {
      CodeSpecificBranchEnds(q, matches, s, [routing]);
    } else {
      EmbeddedWellEnded(q, intent, matches, s, [routing], []);
    }
  }

  /** Every run, whatever its question and collaborators, ends well: see
      `WellEnded`. */
  lemma RunWellEnded(question: Option<string>, s: Services)
    ensures WellEnded(RunSpec(question, s), Stripped(question))
  {
    StartedWellEnded(Stripped(question), s);
  }

  lemma StartedWellEnded(q: string, s: Services)
    ensures WellEnded(Started(q, s), q)
  {
    if q != "" {
      DispatchEnds(q, RunIntent(q), Detect(Some(q)), s);
    }
  }

  /** The direct text is shown exactly for a CODE_SPECIFIC question whose
      lookups found rows, and then the only calls are those lookups, one
      per match in match order: no embedding, no search, no model. */
  lemma DirectTextPath(question: Option<string>, s: Services)
    ensures var o := RunSpec(question, s); var q := Stripped(question);
      o.terminal == DirectText <==>
        q != "" && RunIntent(q) == CodeSpecific && Collected(Detect(Some(q)), s.lookupCollateral).0 != []
    ensures var o := RunSpec(question, s); var q := Stripped(question);
      o.terminal == DirectText ==> o.calls == LookupCalls(Detect(Some(q)))
  {
    StartedDirectText(Stripped(question), s);
  }

  lemma StartedDirectText(q: string, s: Services)
    ensures var o := Started(q, s);
      o.terminal == DirectText <==>
        q != "" && RunIntent(q) == CodeSpecific && Collected(Detect(Some(q)), s.lookupCollateral).0 != []
    ensures var o := Started(q, s);
      o.terminal == DirectText ==> o.calls == LookupCalls(Detect(Some(q)))
  {
    if q != "" {
      DispatchEnds(q, RunIntent(q), Detect(Some(q)), s);
    }
  }

  // Call traces of the branches.

  /** The model call made at the end of a branch: one, with the context
      formatted from the evidence, exactly when there is evidence. */
  function ModelCall(question: string, rows: seq<Chunk>): seq<Call> {
    if rows == [] then [] else [Generate(question, ContextText(rows))]
  }

  /** The searches of step 6: CLASSIFICATION searches with ["ANNEX_CODE"]
      and, when that comes back empty, once more without a filter; every
      other intent searches once without a filter. */
  function SearchCalls(intent: Intent, filteredEmpty: bool): seq<Call> {
    if intent == Classification then
      [VectorSearch(Some(ANNEX_CODE_FILTERS))] + (if filteredEmpty then [VectorSearch(None)] else [])
    else [VectorSearch(None)]
  }

  /** The rows step 6 hands to the model: those of its last search. */
  function SearchRows(intent: Intent, embedding: seq<real>, s: Services): seq<Chunk> {
    var filtered := s.vectorSearch(embedding, Some(ANNEX_CODE_FILTERS));
    if intent == Classification && filtered != [] then filtered else s.vectorSearch(embedding, None)
  }

  /** The end of a branch adds the model call exactly when there is evidence,
      exits 0 exactly when there is none, and exits 1 exactly when the model
      call fails; the lines printed before are kept. */
  lemma AnsweringCalls(question: string, chunks: seq<Chunk>, entries: seq<Entry>, s: Services,
                       printed: seq<Line>, calls: seq<Call>)
    ensures var o := Answering(question, chunks, entries, s, printed, calls);
      && o.calls == calls + ModelCall(question, chunks)
      && (o.terminal == NoResults <==> chunks == [])
      && (o.terminal == Failed <==> chunks != [] && GenerateAnswer(s, question, ContextText(chunks)).Err?)
      && |o.printed| > |printed| && o.printed[..|printed|] == printed
  {
    var o := Answering(question, chunks, entries, s, printed, calls);
    if chunks == [] {
      assert o == Outcome(printed + [NoResultsFound], calls, NoResults);
    } else {
      var context := ContextText(chunks);
      var answer := GenerateAnswer(s, question, context);
      if answer.Err? {
        assert LlmStage(question, chunks, entries, s) == ([], Generate(question, context), Some(answer.error));
        assert o == Outcome(printed + [LlmError(answer.error)], calls + [Generate(question, context)], Failed);
      } else {
        var out := [AnswerHeader, AnswerText(answer.value)] + SourcesOutput(chunks, entries);
        assert LlmStage(question, chunks, entries, s) == (out, Generate(question, context), None);
        assert o == Outcome(printed + out, calls + [Generate(question, context)], Answer);
      }
    }
  }

  /** What the end of a branch prints: "Nessun risultato trovato." without
      evidence; with an answer, the answer under its header followed by the
      sources of the evidence and of the given entries. */
  lemma AnsweringPrinted(question: string, chunks: seq<Chunk>, entries: seq<Entry>, s: Services,
                         printed: seq<Line>, calls: seq<Call>)
    ensures var o := Answering(question, chunks, entries, s, printed, calls);
      chunks == [] ==> o.printed == printed + [NoResultsFound]
    ensures var o := Answering(question, chunks, entries, s, printed, calls);
      o.terminal == Answer ==>
        var answer := GenerateAnswer(s, question, ContextText(chunks));
        answer.Ok? && o.printed == printed + [AnswerHeader, AnswerText(answer.value)] + SourcesOutput(chunks, entries)
  {
    if chunks != [] {
      var context := ContextText(chunks);
      var answer := GenerateAnswer(s, question, context);
      if answer.Ok? {
        var out := [AnswerHeader, AnswerText(answer.value)] + SourcesOutput(chunks, entries);
        assert LlmStage(question, chunks, entries, s) == (out, Generate(question, context), None);
      }
    }
  }

  /** Step 6 reduces to the end of a branch: it makes the searches of
      `SearchCalls`, prints the fallback line exactly when the filtered search
      was retried, and answers from the rows of the last search, naming no
      entry in the sources. */
  lemma VectorBranchReduces(q: string, intent: Intent, embedding: seq<real>, s: Services,
                            printed: seq<Line>, calls: seq<Call>)
    ensures var filteredEmpty := s.vectorSearch(embedding, Some(ANNEX_CODE_FILTERS)) == [];
      var fallback := if intent == Classification && filteredEmpty then [FilterFallback] else [];
      VectorBranch(q, intent, embedding, s, printed, calls)
        == Answering(q, SearchRows(intent, embedding, s), [], s, printed + fallback, calls + SearchCalls(intent, filteredEmpty))
  {
    var filteredEmpty := s.vectorSearch(embedding, Some(ANNEX_CODE_FILTERS)) == [];
    var rows := SearchRows(intent, embedding, s);
    if intent == Classification && filteredEmpty {
      assert calls + SearchCalls(intent, filteredEmpty)
          == calls + [VectorSearch(Some(ANNEX_CODE_FILTERS))] + [VectorSearch(None)];
    } else {
      assert printed + [] == printed;
      if intent == Classification {
        assert rows == s.vectorSearch(embedding, Some(ANNEX_CODE_FILTERS));
        assert calls + SearchCalls(intent, filteredEmpty) == calls + [VectorSearch(Some(ANNEX_CODE_FILTERS))];
      } else {
        assert rows == s.vectorSearch(embedding, None);
      }
    }
  }

  /** Step 6 as a trace: the searches, then the model call on the rows of the
      last search; exit 0 exactly when those rows are empty. */
  lemma VectorBranchTrace(q: string, intent: Intent, embedding: seq<real>, s: Services,
                          printed: seq<Line>, calls: seq<Call>)
    ensures var o := VectorBranch(q, intent, embedding, s, printed, calls);
      var filteredEmpty := s.vectorSearch(embedding, Some(ANNEX_CODE_FILTERS)) == [];
      var rows := SearchRows(intent, embedding, s);
      && o.calls == calls + SearchCalls(intent, filteredEmpty) + ModelCall(q, rows)
      && (o.terminal == NoResults <==> rows == [])
  {
    var filteredEmpty := s.vectorSearch(embedding, Some(ANNEX_CODE_FILTERS)) == [];
    var fallback := if intent == Classification && filteredEmpty then [FilterFallback] else [];
    VectorBranchReduces(q, intent, embedding, s, printed, calls);
    AnsweringCalls(q, SearchRows(intent, embedding, s), [], s, printed + fallback, calls + SearchCalls(intent, filteredEmpty));
  }

  /** The rows step 5 hands to the model: the collateral rows of every
      match, in match order, then the rows of one global search. */
  function ProceduralRows(matches: seq<Match>, embedding: seq<real>, s: Services): seq<Chunk> {
    AllResults(matches, s.lookupCollateral) + s.vectorSearch(embedding, None)
  }

  /** Step 5 reduces to the end of a branch: one lookup per match, one
      global search, then the answer from the collateral rows followed by
      the vector rows, with the active entries as sources. */
  lemma ProceduralBranchReduces(q: string, matches: seq<Match>, embedding: seq<real>, s: Services,
                                printed: seq<Line>, calls: seq<Call>)
    ensures ProceduralBranch(q, matches, embedding, s, printed, calls)
        == Answering(q, ProceduralRows(matches, embedding, s), Collected(matches, s.lookupCollateral).1, s,
                     printed, calls + LookupCalls(matches) + [VectorSearch(None)])
  {
    CollectedEvidence(matches, s.lookupCollateral);
  }

  /** A failed embedding ends the run with exit 1 right after the embedding
      call: no search and no model call. */
  lemma EmbeddingFailure(q: string, intent: Intent, matches: seq<Match>, s: Services,
                         printed: seq<Line>, calls: seq<Call>)
    requires s.getEmbedding(NormalizeQuery(q, intent)).Err?
    ensures var nq := NormalizeQuery(q, intent);
      var o := Embedded(q, intent, matches, s, printed, calls);
      && o.printed == printed + [EmbeddingQuery(nq), EmbeddingError(s.getEmbedding(nq).error)]
      && o.calls == calls + [Embed(nq)]
      && ExitCode(o.terminal) == Some(1)
  {
  }

  /** Steps 4 and 5 for a PROCEDURAL question with registry matches: the
      embedding, one lookup per match, one global search, and the model
      call exactly when there are rows; exit 0 without rows; an answer
      names the active entries and the CELEX of all rows. */
  lemma ProceduralTrace(q: string, matches: seq<Match>, s: Services, printed: seq<Line>, calls: seq<Call>)
    requires matches != []
    requires s.getEmbedding(NormalizeQuery(q, Procedural)).Ok?
    ensures var nq := NormalizeQuery(q, Procedural);
      var rows := ProceduralRows(matches, s.getEmbedding(nq).value, s);
      var o := Embedded(q, Procedural, matches, s, printed, calls);
      && o.calls == calls + [Embed(nq)] + LookupCalls(matches) + [VectorSearch(None)] + ModelCall(q, rows)
      && (o.terminal == NoResults <==> rows == [])
      && (o.terminal == NoResults ==> o.printed == printed + [EmbeddingQuery(nq)] + [NoResultsFound])
      && (o.terminal == Answer ==>
            var answer := GenerateAnswer(s, q, ContextText(rows));
            answer.Ok? && o.printed == printed + [EmbeddingQuery(nq)] + [AnswerHeader, AnswerText(answer.value)]
                                       + SourcesOutput(rows, Collected(matches, s.lookupCollateral).1))
  {
    var nq := NormalizeQuery(q, Procedural);
    var embedding := s.getEmbedding(nq).value;
    var rows := ProceduralRows(matches, embedding, s);
    var active := Collected(matches, s.lookupCollateral).1;
    var printed1 := printed + [EmbeddingQuery(nq)];
    var calls1 := calls + [Embed(nq)] + LookupCalls(matches) + [VectorSearch(None)];
    assert calls + [Embed(nq)] + LookupCalls(matches) + [VectorSearch(None)] == calls1;
    ProceduralBranchReduces(q, matches, embedding, s, printed1, calls + [Embed(nq)]);
    assert Embedded(q, Procedural, matches, s, printed, calls) == Answering(q, rows, active, s, printed1, calls1);
    AnsweringCalls(q, rows, active, s, printed1, calls1);
    AnsweringPrinted(q, rows, active, s, printed1, calls1);
  }

  /** The fallback line of step 6, printed when a CLASSIFICATION search with
      ["ANNEX_CODE"] found nothing. */
  function FallbackLines(intent: Intent, filteredEmpty: bool): seq<Line> {
    if intent == Classification && filteredEmpty then [FilterFallback] else []
  }

  /** Steps 4 and 6 for every other question: the embedding, the searches of
      `SearchCalls`, and the model call exactly when the last search found
      rows; exit 0 without rows; an answer names no entry, only the CELEX of
      the rows. */
  lemma VectorTrace(q: string, intent: Intent, matches: seq<Match>, s: Services, printed: seq<Line>, calls: seq<Call>)
    requires !(intent == Procedural && matches != [])
    requires s.getEmbedding(NormalizeQuery(q, intent)).Ok?
    ensures var nq := NormalizeQuery(q, intent);
      var embedding := s.getEmbedding(nq).value;
      var filteredEmpty := s.vectorSearch(embedding, Some(ANNEX_CODE_FILTERS)) == [];
      var rows := SearchRows(intent, embedding, s);
      var o := Embedded(q, intent, matches, s, printed, calls);
      && o.calls == calls + [Embed(nq)] + SearchCalls(intent, filteredEmpty) + ModelCall(q, rows)
      && (o.terminal == NoResults <==> rows == [])
      && (o.terminal == NoResults ==>
            o.printed == printed + [EmbeddingQuery(nq)] + FallbackLines(intent, filteredEmpty) + [NoResultsFound])
      && (o.terminal == Answer ==>
            var answer := GenerateAnswer(s, q, ContextText(rows));
            answer.Ok? && o.printed == printed + [EmbeddingQuery(nq)] + FallbackLines(intent, filteredEmpty)
                                       + [AnswerHeader, AnswerText(answer.value)] + SourcesOutput(rows, []))
  {
    var nq := NormalizeQuery(q, intent);
    var embedding := s.getEmbedding(nq).value;
    var filteredEmpty := s.vectorSearch(embedding, Some(ANNEX_CODE_FILTERS)) == [];
    var rows := SearchRows(intent, embedding, s);
    var fallback := FallbackLines(intent, filteredEmpty);
    var printed1 := printed + [EmbeddingQuery(nq)] + fallback;
    var calls1 := calls + [Embed(nq)] + SearchCalls(intent, filteredEmpty);
    VectorBranchReduces(q, intent, embedding, s, printed + [EmbeddingQuery(nq)], calls + [Embed(nq)]);
    assert Embedded(q, intent, matches, s, printed, calls) == Answering(q, rows, [], s, printed1, calls1);
    AnsweringCalls(q, rows, [], s, printed1, calls1);
    AnsweringPrinted(q, rows, [], s, printed1, calls1);
  }

  /** A question past the blank check is routed on its final intent. */
  lemma RunDispatches(question: Option<string>, s: Services)
    requires Stripped(question) != ""
    ensures var q := Stripped(question);
      RunSpec(question, s) == Dispatch(q, RunIntent(q), Detect(Some(q)), s)
  {
  }

  /** CODE_SPECIFIC without collateral rows: after the lookups, the routing
      line and the fallback line, the run goes on as a GENERIC question. */
  lemma CodeSpecificFallback(q: string, matches: seq<Match>, s: Services)
    requires Collected(matches, s.lookupCollateral).0 == []
    ensures Dispatch(q, CodeSpecific, matches, s)
         == Embedded(q, Generic, matches, s, [Routing(CodeSpecific, matches), CollateralFallback], LookupCalls(matches))
  {
    assert [Routing(CodeSpecific, matches)] + [CollateralFallback] == [Routing(CodeSpecific, matches), CollateralFallback];
  }

  /** The GENERIC fallback of CODE_SPECIFIC makes one search, without
      filter, and its sources name no entry. */
  lemma CodeSpecificFallbackTrace(q: string, matches: seq<Match>, s: Services)
    requires Collected(matches, s.lookupCollateral).0 == []
    requires s.getEmbedding(NormalizeQuery(q, Generic)).Ok?
    ensures var nq := NormalizeQuery(q, Generic);
      var o := Dispatch(q, CodeSpecific, matches, s);
      var rows := s.vectorSearch(s.getEmbedding(nq).value, None);
      && o.calls == LookupCalls(matches) + [Embed(nq)] + [VectorSearch(None)] + ModelCall(q, rows)
      && (o.terminal == NoResults <==> rows == [])
      && (o.terminal == Answer ==>
            var answer := GenerateAnswer(s, q, ContextText(rows));
            answer.Ok? && o.printed == [Routing(CodeSpecific, matches), CollateralFallback] + [EmbeddingQuery(nq)]
                                       + [AnswerHeader, AnswerText(answer.value)] + SourcesOutput(rows, []))
  {
    var nq := NormalizeQuery(q, Generic);
    var embedding := s.getEmbedding(nq).value;
    var printed := [Routing(CodeSpecific, matches), CollateralFallback];
    CodeSpecificFallback(q, matches, s);
    VectorTrace(q, Generic, matches, s, printed, LookupCalls(matches));
    var filteredEmpty := s.vectorSearch(embedding, Some(ANNEX_CODE_FILTERS)) == [];
    assert SearchRows(Generic, embedding, s) == s.vectorSearch(embedding, None);
    assert SearchCalls(Generic, filteredEmpty) == [VectorSearch(None)];
    assert printed + [EmbeddingQuery(nq)] + FallbackLines(Generic, filteredEmpty) == printed + [EmbeddingQuery(nq)];
  }

  /** A PROCEDURAL question with registry matches: the embedding call, one
      lookup per match, one global search, then the model on the collateral
      rows followed by the vector rows; exit 0 when both are empty. */
  lemma ProceduralPath(q: string, matches: seq<Match>, s: Services)
    requires matches != []
    ensures var nq := NormalizeQuery(q, Procedural);
      var o := Dispatch(q, Procedural, matches, s);
      s.getEmbedding(nq).Ok? ==>
        var rows := ProceduralRows(matches, s.getEmbedding(nq).value, s);
        && o.calls == [Embed(nq)] + LookupCalls(matches) + [VectorSearch(None)] + ModelCall(q, rows)
        && (o.terminal == NoResults <==> rows == [])
  {
    var nq := NormalizeQuery(q, Procedural);
    if s.getEmbedding(nq).Ok? {
      var rows := ProceduralRows(matches, s.getEmbedding(nq).value, s);
      ProceduralTrace(q, matches, s, [Routing(Procedural, matches)], []);
      assert [] + [Embed(nq)] == [Embed(nq)];
    }
  }

  /** Every other routed question (CLASSIFICATION, GENERIC, PROCEDURAL
      without matches): the embedding call, the searches of `SearchCalls`
      (the filtered one retried once, unfiltered, only for CLASSIFICATION),
      then the model on the rows of the last search; exit 0 when they are
      empty. */
  lemma VectorPath(q: string, intent: Intent, matches: seq<Match>, s: Services)
    requires intent != CodeSpecific
    requires !(intent == Procedural && matches != [])
    ensures var nq := NormalizeQuery(q, intent);
      var o := Dispatch(q, intent, matches, s);
      s.getEmbedding(nq).Ok? ==>
        var embedding := s.getEmbedding(nq).value;
        var filteredEmpty := s.vectorSearch(embedding, Some(ANNEX_CODE_FILTERS)) == [];
        var rows := SearchRows(intent, embedding, s);
        && o.calls == [Embed(nq)] + SearchCalls(intent, filteredEmpty) + ModelCall(q, rows)
        && (o.terminal == NoResults <==> rows == [])
  {
    var nq := NormalizeQuery(q, intent);
    if s.getEmbedding(nq).Ok? {
      VectorTrace(q, intent, matches, s, [Routing(intent, matches)], []);
      assert [] + [Embed(nq)] == [Embed(nq)];
    }
  }
}
