/**
 * The registry scanner of tools/scan_db.py: validation of a registry entry
 * against the database, and the heuristics that profile the code samples
 * of a table. The database answers (table names, column names, sampled
 * values, the verification lookup) are parameters; confidences are in
 * hundredths, and the float thresholds are integer inequalities on the
 * counts they divide.
 */
module ScanDb {
  import opened Wrappers
  import opened Text
  import opened Patterns
  import opened Registry

  // ---------------------------------------------------------------------
  // Checks and scan results
  // ---------------------------------------------------------------------

  /** The six steps of validation; the last one depends on the source type. */
  datatype CheckName =
    | TableExists | CodeFieldExists | TextFieldExists | HasData | PatternCoverage | SampleLookup
    | CelexFieldPresent | StaticCelexConfigured

  function CheckNameText(n: CheckName): string {
    match n
    case TableExists => "table_exists"
    case CodeFieldExists => "code_field_exists"
    case TextFieldExists => "text_field_exists"
    case HasData => "has_data"
    case PatternCoverage => "pattern_coverage"
    case SampleLookup => "sample_lookup"
    case CelexFieldPresent => "celex_field_present"
    case StaticCelexConfigured => "static_celex_configured"
  }

  /** The detail text of a check, as a value; `DetailText` renders it.
      `Coverage` holds the formatted percentage. */
  datatype Detail =
    | NoDetail
    | TableNotFound(table: string)
    | FieldNotFound(field: string)
    | SamplesRead(count: nat)
    | NoData
    | Coverage(percent: string, ok: bool)
    | LookupCount(code: string, count: nat)
    | LookupError(message: string)
    | CelexColumnMissing
    | StaticCelexMissing

  function DetailText(d: Detail): string {
    match d
    case NoDetail => ""
    case TableNotFound(table) => "Tabella '" + table + "' non trovata nel DB"
    case FieldNotFound(field) => "Campo '" + field + "' non trovato"
    case SamplesRead(n) => NatToString(n) + " campioni letti"
    case NoData => "Nessun dato nel code_field"
    case Coverage(percent, ok) =>
      percent + " dei campioni matchano il pattern" + (if ok then "" else "  (soglia: 80%)")
    case LookupCount(code, n) => "Lookup '" + code + "' \U{2192} " + NatToString(n) + " risultati"
    case LookupError(message) => "Errore: " + message
    case CelexColumnMissing => "Campo celex_consolidated mancante (richiesto da source.type=celex_field)"
    case StaticCelexMissing => "source.celex o source.url mancante"
  }

  datatype Check = Check(name: CheckName, passed: bool, detail: Detail)

  predicate AnyFailed(checks: seq<Check>) {
    exists k :: 0 <= k < |checks| && !checks[k].passed
  }

  /** The validation result of one registry entry; checks are appended as
      they are run. */
  class ScanResult {
    var entryId: string
    var table: string
    var rowEstimate: int
    var checks: seq<Check>

    constructor (entryId: string, table: string, rowEstimate: int)
      ensures this.entryId == entryId && this.table == table && this.rowEstimate == rowEstimate
      ensures checks == []
    {
      this.entryId := entryId;
      this.table := table;
      this.rowEstimate := rowEstimate;
      checks := [];
    }

    /** `status`: "error" exactly when some check failed, "ok" otherwise. */
    function Status(): (r: string)
      reads this
      ensures r == "error" || r == "ok"
      ensures r == "error" <==> AnyFailed(checks)
    {
      if exists k :: 0 <= k < |checks| && !checks[k].passed then "error" else "ok"
    }
  }

  // ---------------------------------------------------------------------
  // Counting pattern hits
  // ---------------------------------------------------------------------

  /** `sum(1 for s in samples if regex.search(s))` */
  function Hits(p: Pattern, samples: seq<string>): (n: nat)
    ensures n <= |samples|
    decreases |samples|
  {
    if samples == [] then 0
    else Hits(p, samples[..|samples| - 1]) + (if Found(p, samples[|samples| - 1]) then 1 else 0)
  }

  /** The samples with surrounding white space removed. */
  function Stripped(samples: seq<string>): (r: seq<string>)
    ensures |r| == |samples|
    ensures forall k :: 0 <= k < |samples| ==> r[k] == Strip(samples[k])
  {
    seq(|samples|, k requires 0 <= k < |samples| => Strip(samples[k]))
  }

  /** `hits / n >= 0.80`, exactly, for a non-empty list of n samples. */
  predicate Covers(hits: nat, n: nat) {
    5 * hits >= 4 * n
  }

  /** The pattern of `e` hits at least 80% of the stripped samples. */
  predicate CoveredBy(e: Entry, samples: seq<string>) {
    Covers(Hits(e.pattern, Stripped(samples)), |samples|)
  }

  // ---------------------------------------------------------------------
  // Phase 1: registry patterns
  // ---------------------------------------------------------------------

  /** What `_match_registry_patterns` finds: the first entry of `entries`
      whose pattern covers the stripped samples. */
  function FirstCovering(entries: seq<Entry>, samples: seq<string>): Option<Entry>
    decreases |entries|
  {
    if entries == [] then None
    else if CoveredBy(entries[0], samples) then Some(entries[0])
    else FirstCovering(entries[1..], samples)
  }

  /** `_match_registry_patterns` as a value: None for no samples. */
  function RegistryHit(samples: seq<string>): Option<Entry> {
    if samples == [] then None else FirstCovering(REGISTRY, samples)
  }

  /** `_match_registry_patterns`: the registry in order, stopping at the
      first entry whose pattern hits at least 80% of the stripped samples;
      the entry stands for its (pattern, match_mode, id). */
  method MatchRegistryPatterns(samples: seq<string>) returns (found: Option<Entry>)
    ensures found == RegistryHit(samples)
    ensures samples == [] ==> found.None?
    ensures found.Some? ==> (found.value in REGISTRY && CoveredBy(found.value, samples))
  {
    if samples == [] {
      return None;
    }
    var i := 0;
    while i < |REGISTRY|
      invariant 0 <= i <= |REGISTRY|
      invariant FirstCovering(REGISTRY[i..], samples) == FirstCovering(REGISTRY, samples)
    {
      var entry := REGISTRY[i];
      var hits := Hits(entry.pattern, Stripped(samples));
      if 5 * hits >= 4 * |samples| {
        FirstCoveringFound(REGISTRY, samples);
        return Some(entry);
      }
      assert REGISTRY[i..][1..] == REGISTRY[i + 1..];
      i := i + 1;
    }
    FirstCoveringFound(REGISTRY, samples);
    return None;
  }

  /** The entry found is one of the entries, it covers the samples, and no
      earlier entry does; None means that no entry covers them. */
  lemma {:induction false} FirstCoveringFound(entries: seq<Entry>, samples: seq<string>)
    ensures FirstCovering(entries, samples).Some? ==>
      exists i :: 0 <= i < |entries| && entries[i] == FirstCovering(entries, samples).value
        && CoveredBy(entries[i], samples)
        && forall k :: 0 <= k < i ==> !CoveredBy(entries[k], samples)
    ensures FirstCovering(entries, samples).None? ==>
      forall k :: 0 <= k < |entries| ==> !CoveredBy(entries[k], samples)
    decreases |entries|
  {
    if entries != [] {
      var rest := entries[1..];
      FirstCoveringFound(rest, samples);
      assert forall k :: 1 <= k < |entries| ==> entries[k] == rest[k - 1];
      if CoveredBy(entries[0], samples) {
        assert entries[0] == FirstCovering(entries, samples).value;
      } else if FirstCovering(rest, samples).Some? {
        var i :| 0 <= i < |rest| && rest[i] == FirstCovering(rest, samples).value
          && CoveredBy(rest[i], samples)
          && forall k :: 0 <= k < i ==> !CoveredBy(rest[k], samples);
        assert entries[i + 1] == rest[i];
      }
    }
  }

  /** dual_use_correlations shares its pattern with nomenclature, which
      comes first: it is never the entry found. */
  lemma CorrelationsNeverChosen(samples: seq<string>)
    ensures RegistryHit(samples) != Some(DUAL_USE_CORRELATIONS)
  {
    if samples != [] {
      var rest := REGISTRY[1..];
      var last := [DUAL_USE_CORRELATIONS];
      assert REGISTRY[0] == DUAL_USE && rest[0] == NOMENCLATURE && rest[1..] == last;
      assert DUAL_USE.pattern != DUAL_USE_CORRELATIONS.pattern;
      assert |NOMENCLATURE.id| != |DUAL_USE_CORRELATIONS.id|;
      assert CoveredBy(DUAL_USE_CORRELATIONS, samples) == CoveredBy(NOMENCLATURE, samples) by {
        assert NOMENCLATURE.pattern == DUAL_USE_CORRELATIONS.pattern;
      }
      assert FirstCovering(last, samples) ==
        if CoveredBy(NOMENCLATURE, samples) then Some(DUAL_USE_CORRELATIONS) else None;
      assert FirstCovering(rest, samples) ==
        if CoveredBy(NOMENCLATURE, samples) then Some(NOMENCLATURE) else FirstCovering(last, samples);
      assert FirstCovering(REGISTRY, samples) ==
        if CoveredBy(DUAL_USE, samples) then Some(DUAL_USE) else FirstCovering(rest, samples);
    }
  }

  // ---------------------------------------------------------------------
  // Phase 2: general heuristics
  // ---------------------------------------------------------------------

  /** `[s.strip().split()[0] for s in samples]` */
  function FirstTokens(samples: seq<string>): (r: seq<string>)
    ensures |r| == |samples|
    ensures forall k :: 0 <= k < |samples| ==> r[k] == FirstToken(samples[k])
  {
    seq(|samples|, k requires 0 <= k < |samples| => FirstToken(samples[k]))
  }

  /** Every sample has a non-space token, so `split()[0]` is defined. */
  predicate AllHaveTokens(samples: seq<string>) {
    forall k :: 0 <= k < |samples| ==> HasToken(samples[k])
  }

  /** `re.match(r"^\d+$", s)` */
  predicate Numeric(s: string) {
    s != [] && AllDigits(s)
  }

  /** `re.match(r"^[A-Z0-9]+$", s, re.IGNORECASE)` */
  predicate Alphanumeric(s: string) {
    s != [] && AllAlnum(s)
  }

  function MinLength(ws: seq<string>): (m: nat)
    requires ws != []
    ensures forall k :: 0 <= k < |ws| ==> m <= |ws[k]|
    ensures exists k :: 0 <= k < |ws| && m == |ws[k]|
    decreases |ws|
  {
    if |ws| == 1 then |ws[0]|
    else
      var m := MinLength(ws[1..]);
      assert forall k :: 1 <= k < |ws| ==> ws[k] == ws[1..][k - 1];
      if |ws[0]| <= m then |ws[0]| else m
  }

  function MaxLength(ws: seq<string>): (m: nat)
    requires ws != []
    ensures forall k :: 0 <= k < |ws| ==> |ws[k]| <= m
    ensures exists k :: 0 <= k < |ws| && m == |ws[k]|
    decreases |ws|
  {
    if |ws| == 1 then |ws[0]|
    else
      var m := MaxLength(ws[1..]);
      assert forall k :: 1 <= k < |ws| ==> ws[k] == ws[1..][k - 1];
      if |ws[0]| >= m then |ws[0]| else m
  }

  /** A heuristic guess: the pattern (None when there is none), the match
      mode, the confidence in hundredths and a description. */
  datatype Guess = Guess(pattern: Option<Pattern>, mode: MatchMode, confidence: nat, description: Note)

  /** The descriptions and notes the profiler writes, as values; `NoteText`
      renders them. */
  datatype Note =
    | NoSamples
    | VariableDigits(lo: nat, hi: nat)
    | FixedDigits(n: nat)
    | NearlyFixedDigits(lo: nat, hi: nat)
    | FixedAlphanumeric(n: nat)
    | NoHeuristic
    | NoSamplesAvailable
    | RegistryMatch(id: string)
    | LowConfidence
    | NoPattern

  function RangeText(lo: nat, hi: nat): string {
    NatToString(lo) + "\U{2013}" + NatToString(hi)
  }

  function NoteText(n: Note): string {
    match n
    case NoSamples => "Nessun campione"
    case VariableDigits(lo, hi) => "Numerici variabili (" + RangeText(lo, hi) + " cifre) \U{2192} probabile gerarchia"
    case FixedDigits(n) => "Numerici a lunghezza fissa (" + NatToString(n) + " cifre)"
    case NearlyFixedDigits(lo, hi) => "Numerici quasi-fissi (" + RangeText(lo, hi) + " cifre)"
    case FixedAlphanumeric(n) => "Alfanumerico a lunghezza fissa (" + NatToString(n) + " caratteri)"
    case NoHeuristic => "Nessun pattern rilevabile automaticamente"
    case NoSamplesAvailable => "Nessun campione disponibile"
    case RegistryMatch(id) => "Pattern corrisponde all'entry registry: '" + id + "'"
    case LowConfidence => "Confidence bassa \U{2013} verificare il pattern manualmente"
    case NoPattern => "Nessun pattern rilevato \U{2013} ispezione manuale necessaria"
  }

  /** The heuristics on the cleaned tokens: all numeric, then uniform
      alphanumeric, else nothing. */
  function GuessFromTokens(clean: seq<string>): (g: Guess)
    requires clean != []
    ensures g.pattern.None? <==> g.confidence == 0
    ensures g.pattern.None? ==> g == Guess(None, Exact, 0, NoHeuristic)
    ensures g.confidence in {0, 65, 75, 80}
  {
    if forall k :: 0 <= k < |clean| ==> Numeric(clean[k]) then
      var lo, hi := MinLength(clean), MaxLength(clean);
      if hi - lo >= 4 then Guess(Some(DigitRun(lo, hi)), Prefix, 75, VariableDigits(lo, hi))
      else if lo == hi then Guess(Some(DigitRun(lo, lo)), Exact, 80, FixedDigits(lo))
      else Guess(Some(DigitRun(lo, hi)), Exact, 65, NearlyFixedDigits(lo, hi))
    else if (forall k :: 0 <= k < |clean| ==> Alphanumeric(clean[k])) && MinLength(clean) == MaxLength(clean) then
      Guess(Some(AlnumRun(|clean[0]|)), Exact, 65, FixedAlphanumeric(|clean[0]|))
    else Guess(None, Exact, 0, NoHeuristic)
  }

  /** `_apply_heuristics`. A sample without a token makes `split()[0]`
      raise, so every sample must have one. */
  function ApplyHeuristics(samples: seq<string>): (g: Guess)
    requires AllHaveTokens(samples)
    ensures samples == [] ==> g == Guess(None, Exact, 0, NoSamples)
    ensures g.pattern.None? <==> g.confidence == 0
    ensures g.pattern.None? ==> g.mode == Exact
    ensures g.confidence in {0, 65, 75, 80}
  {
    if samples == [] then Guess(None, Exact, 0, NoSamples)
    else GuessFromTokens(FirstTokens(samples))
  }

  /** All tokens numeric: the confidence ladder on the length spread. */
  lemma NumericLadder(clean: seq<string>)
    requires clean != []
    requires forall k :: 0 <= k < |clean| ==> Numeric(clean[k])
    ensures var g := GuessFromTokens(clean);
      var lo, hi := MinLength(clean), MaxLength(clean);
      && (hi - lo >= 4 ==> g.pattern == Some(DigitRun(lo, hi)) && g.mode == Prefix && g.confidence == 75)
      && (hi == lo ==> g.pattern == Some(DigitRun(lo, lo)) && g.mode == Exact && g.confidence == 80)
      && (lo < hi < lo + 4 ==> g.pattern == Some(DigitRun(lo, hi)) && g.mode == Exact && g.confidence == 65)
  {
  }

  /** Not all numeric: equal-length alphanumerics give exact / 0.65,
      anything else gives no pattern. */
  lemma NonNumericLadder(clean: seq<string>)
    requires clean != []
    requires exists k :: 0 <= k < |clean| && !Numeric(clean[k])
    ensures var g := GuessFromTokens(clean);
      var uniform := (forall k :: 0 <= k < |clean| ==> Alphanumeric(clean[k])) && MinLength(clean) == MaxLength(clean);
      && (uniform ==> g.pattern == Some(AlnumRun(|clean[0]|)) && g.mode == Exact && g.confidence == 65)
      && (!uniform ==> g == Guess(None, Exact, 0, NoHeuristic))
  {
  }

  /** A token is never empty: it starts at a non-space character. */
  lemma FirstTokenNonEmpty(s: string)
    requires HasToken(s)
    ensures FirstToken(s) != []
  {
  }

  /** Whatever pattern the heuristics propose matches every token as a
      whole word, and a search for it finds that token in full. */
  lemma GuessMatchesTokens(clean: seq<string>)
    requires clean != [] && GuessFromTokens(clean).pattern.Some?
    ensures forall k :: 0 <= k < |clean| ==> Shape(GuessFromTokens(clean).pattern.value, clean[k])
    ensures forall k :: 0 <= k < |clean| ==>
      Search(GuessFromTokens(clean).pattern.value, clean[k]) == Some(clean[k])
  {
    var p := GuessFromTokens(clean).pattern.value;
    assert forall k :: 0 <= k < |clean| ==> Shape(p, clean[k]);
    forall k | 0 <= k < |clean|
      ensures Search(p, clean[k]) == Some(clean[k])
    {
      WholeWordFound(p, clean[k]);
    }
  }

  // ---------------------------------------------------------------------
  // Pattern detection
  // ---------------------------------------------------------------------

  /** The threshold below which a heuristic guess is flagged. */
  const LOW_CONFIDENCE_BELOW: nat := 70
  const REGISTRY_CONFIDENCE: nat := 95

  /** `detect_pattern`: (pattern, match mode, confidence, notes). */
  datatype Detection = Detection(pattern: Option<Pattern>, mode: MatchMode, confidence: nat, notes: seq<Note>)

  /** `detect_pattern`. The heuristics run only when no registry entry
      covers the samples; only then must every sample have a token. */
  function DetectPattern(samples: seq<string>): (d: Detection)
    requires RegistryHit(samples).None? ==> AllHaveTokens(samples)
    ensures samples == [] ==> d == Detection(None, Exact, 0, [NoSamplesAvailable])
    ensures d.pattern.None? ==> d.mode == Exact && d.confidence == 0
    ensures d.notes != []
  {
    if samples == [] then Detection(None, Exact, 0, [NoSamplesAvailable])
    else match RegistryHit(samples)
      case Some(e) => Detection(Some(e.pattern), e.matchMode, REGISTRY_CONFIDENCE, [RegistryMatch(e.id)])
      case None =>
        var g := ApplyHeuristics(samples);
        if g.pattern.Some? then
          Detection(g.pattern, g.mode, g.confidence,
                    [g.description] + (if g.confidence < LOW_CONFIDENCE_BELOW then [LowConfidence] else []))
        else Detection(None, Exact, 0, [NoPattern])
  }

  /** A registry hit wins: its pattern and mode, 0.95, one note naming it. */
  lemma RegistryHitWins(samples: seq<string>)
    requires RegistryHit(samples).Some?
    ensures var e := RegistryHit(samples).value;
      DetectPattern(samples) == Detection(Some(e.pattern), e.matchMode, 95, [RegistryMatch(e.id)])
  {
  }

  /** Without a registry hit the heuristic guess is taken, with a warning
      note exactly when its confidence is below 0.70. */
  lemma HeuristicNotes(samples: seq<string>)
    requires samples != [] && RegistryHit(samples).None? && AllHaveTokens(samples)
    ensures var g := ApplyHeuristics(samples);
      var d := DetectPattern(samples);
      && (g.pattern.Some? ==>
            (&& d.pattern == g.pattern && d.mode == g.mode && d.confidence == g.confidence
             && d.notes[0] == g.description
             && (|d.notes| == 2 <==> g.confidence < 70)
             && (|d.notes| == 2 ==> d.notes[1] == LowConfidence)
             && |d.notes| <= 2))
      && (g.pattern.None? ==> d == Detection(None, Exact, 0, [NoPattern]))
  {
  }

  /** Every confidence detect_pattern reports is one of the fixed levels. */
  lemma ConfidenceLevels(samples: seq<string>)
    requires RegistryHit(samples).None? ==> AllHaveTokens(samples)
    ensures DetectPattern(samples).confidence in {0, 65, 75, 80, 95}
    ensures DetectPattern(samples).confidence == 95 <==> RegistryHit(samples).Some?
  {
    if samples != [] && RegistryHit(samples).None? {
      var g := ApplyHeuristics(samples);
      assert g.confidence in {0, 65, 75, 80};
    }
  }

  // ---------------------------------------------------------------------
  // Match mode
  // ---------------------------------------------------------------------

  predicate PrefixRelated(a: string, b: string) {
    StartsWith(a, b) || StartsWith(b, a)
  }

  /** Number of pairs `i < j` whose tokens are prefix-related. */
  function PrefixPairs(ws: seq<string>): (n: nat)
    decreases |ws|
  {
    if ws == [] then 0
    else PrefixPairs(ws[..|ws| - 1]) + PairsWithLast(ws, 0)
  }

  /** Number of `i < |ws| - 1` whose token is prefix-related to the last one, from `i` on. */
  function PairsWithLast(ws: seq<string>, i: nat): (n: nat)
    requires ws != [] && i <= |ws| - 1
    ensures n <= |ws| - 1 - i
    decreases |ws| - 1 - i
  {
    if i == |ws| - 1 then 0
    else (if PrefixRelated(ws[i], ws[|ws| - 1]) then 1 else 0) + PairsWithLast(ws, i + 1)
  }

  /** `n * (n - 1) / 2`, the number of pairs `i < j` below n. */
  function PairCount(n: nat): nat {
    if n == 0 then 0 else PairCount(n - 1) + (n - 1)
  }

  lemma {:induction false} PairCountFormula(n: nat)
    ensures 2 * PairCount(n) == n * (n - 1)
  {
    if n > 0 {
      PairCountFormula(n - 1);
      assert n * (n - 1) == (n - 1) * (n - 2) + 2 * (n - 1);
    }
  }

  /** Never more prefix-related pairs than pairs. */
  lemma {:induction false} PrefixPairsBound(ws: seq<string>)
    ensures PrefixPairs(ws) <= PairCount(|ws|)
    decreases |ws|
  {
    if ws != [] {
      PrefixPairsBound(ws[..|ws| - 1]);
    }
  }

  /** The match mode suggested by the cleaned tokens. */
  function ModeFromTokens(clean: seq<string>): (m: MatchMode)
    ensures |clean| < 2 ==> m == Exact
    ensures m == Prefix ==> |clean| >= 2
  {
    var n := |clean|;
    if n < 2 then Exact
    else if 5 * PrefixPairs(clean) > PairCount(n) then Prefix
    else if MaxLength(clean) - MinLength(clean) >= 4 then Prefix
    else Exact
  }

  /** `detect_match_mode`. A sample without a token makes `split()[0]`
      raise, so every sample must have one. */
  function DetectMatchMode(samples: seq<string>): (m: MatchMode)
    requires AllHaveTokens(samples)
    ensures |samples| < 2 ==> m == Exact
  {
    if samples == [] then Exact else ModeFromTokens(FirstTokens(samples))
  }

  /** When all tokens are prefix-related to the last one, every one of
      them counts. */
  lemma {:induction false} AllRelatedToLast(ws: seq<string>, i: nat)
    requires ws != [] && i <= |ws| - 1
    requires forall k :: 0 <= k < |ws| ==> ws[k] == ws[0]
    ensures PairsWithLast(ws, i) == |ws| - 1 - i
    decreases |ws| - 1 - i
  {
    if i < |ws| - 1 {
      AllRelatedToLast(ws, i + 1);
      assert StartsWith(ws[i], ws[|ws| - 1]) by {
        assert ws[i] == ws[|ws| - 1];
        assert ws[i][..|ws[i]|] == ws[i];
      }
    }
  }

  /** Identical tokens: every one of the n(n-1)/2 pairs is prefix-related. */
  lemma {:induction false} IdenticalTokensAllPairs(ws: seq<string>)
    requires forall k :: 0 <= k < |ws| ==> ws[k] == ws[0]
    ensures PrefixPairs(ws) == PairCount(|ws|)
    decreases |ws|
  {
    if ws != [] {
      var front := ws[..|ws| - 1];
      if front != [] {
        assert forall k :: 0 <= k < |front| ==> front[k] == front[0];
      }
      IdenticalTokensAllPairs(front);
      AllRelatedToLast(ws, 0);
    }
  }

  /** Two or more identical tokens suggest prefix: every pair is related. */
  lemma RepeatedCodeSuggestsPrefix(clean: seq<string>)
    requires |clean| >= 2
    requires forall k :: 0 <= k < |clean| ==> clean[k] == clean[0]
    ensures ModeFromTokens(clean) == Prefix
  {
    IdenticalTokensAllPairs(clean);
    assert PairCount(|clean|) >= 1;
  }

  /** A spread of 4 or more in length gives prefix; without prefix-related
      pairs and with lengths within 3 of each other, the mode is exact. */
  lemma SpreadDecides(clean: seq<string>)
    requires |clean| >= 2
    ensures MaxLength(clean) - MinLength(clean) >= 4 ==> ModeFromTokens(clean) == Prefix
    ensures PrefixPairs(clean) == 0 && MaxLength(clean) - MinLength(clean) < 4 ==> ModeFromTokens(clean) == Exact
  {
  }

  /** The ratio test `prefix_pairs / total_pairs > 0.20` and the spread test
      together, in integers: with n tokens there are n(n-1)/2 pairs. */
  lemma ModeRule(clean: seq<string>)
    requires |clean| >= 2
    ensures ModeFromTokens(clean) == Prefix <==>
      (10 * PrefixPairs(clean) > |clean| * (|clean| - 1) || MaxLength(clean) - MinLength(clean) >= 4)
  {
    PairCountFormula(|clean|);
  }

  /** The same rule for the samples, read through their first tokens. */
  lemma DetectMatchModeRule(samples: seq<string>)
    requires AllHaveTokens(samples) && |samples| >= 2
    ensures var clean := FirstTokens(samples);
      |clean| == |samples| &&
      (DetectMatchMode(samples) == Prefix <==>
        (10 * PrefixPairs(clean) > |samples| * (|samples| - 1) || MaxLength(clean) - MinLength(clean) >= 4))
  {
    ModeRule(FirstTokens(samples));
  }

  /** The prefix-related pairs `(i, j)` with `i < j`, as a set. */
  function RelatedPairs(ws: seq<string>): set<(int, int)> {
    set i, j | 0 <= i < j < |ws| && PrefixRelated(ws[i], ws[j]) :: (i, j)
  }

  /** The pairs `(k, last)` with `i <= k < last` that are prefix-related. */
  function RelatedToLast(ws: seq<string>, i: nat): set<(int, int)>
    requires ws != []
  {
    set k | i <= k < |ws| - 1 && PrefixRelated(ws[k], ws[|ws| - 1]) :: (k, |ws| - 1)
  }

  lemma {:induction false} PairsWithLastCounts(ws: seq<string>, i: nat)
    requires ws != [] && i <= |ws| - 1
    ensures PairsWithLast(ws, i) == |RelatedToLast(ws, i)|
    decreases |ws| - 1 - i
  {
    if i < |ws| - 1 {
      PairsWithLastCounts(ws, i + 1);
      var here: set<(int, int)> := if PrefixRelated(ws[i], ws[|ws| - 1]) then {(i, |ws| - 1)} else {};
      assert RelatedToLast(ws, i) == here + RelatedToLast(ws, i + 1);
      assert here * RelatedToLast(ws, i + 1) == {};
    } else {
      assert RelatedToLast(ws, i) == {};
    }
  }

  /** The related pairs of `ws` are those of all but its last token, plus
      the pairs ending at the last one; the two never share a pair. */
  lemma SplitRelatedPairs(ws: seq<string>)
    requires ws != []
    ensures RelatedPairs(ws) == RelatedPairs(ws[..|ws| - 1]) + RelatedToLast(ws, 0)
    ensures RelatedPairs(ws[..|ws| - 1]) * RelatedToLast(ws, 0) == {}
  {
    var front := ws[..|ws| - 1];
    forall p | p in RelatedPairs(ws)
      ensures p in RelatedPairs(front) + RelatedToLast(ws, 0)
    {
      var (i, j) := p;
      if j < |ws| - 1 {
        assert front[i] == ws[i] && front[j] == ws[j];
      }
    }
    forall p | p in RelatedPairs(front)
      ensures p in RelatedPairs(ws) && p.1 < |ws| - 1
    {
      var (i, j) := p;
      assert front[i] == ws[i] && front[j] == ws[j];
    }
  }

  /** `PrefixPairs` counts exactly the prefix-related pairs `i < j`. */
  lemma {:induction false} PrefixPairsCounts(ws: seq<string>)
    ensures PrefixPairs(ws) == |RelatedPairs(ws)|
    decreases |ws|
  {
    if ws == [] {
      assert RelatedPairs(ws) == {};
    } else {
      PrefixPairsCounts(ws[..|ws| - 1]);
      PairsWithLastCounts(ws, 0);
      SplitRelatedPairs(ws);
    }
  }

  // ---------------------------------------------------------------------
  // Validation of a registry entry
  // ---------------------------------------------------------------------

  /** The verification lookup: an equality on the code field for an exact
      entry, a LIKE on the first four characters for a prefix entry. */
  datatype LookupQuery =
    | CodeEquals(table: string, field: string, code: string)
    | CodeLike(table: string, field: string, pattern: string)

  /** The database as validation sees it. `samples` is what
      `sample_values` returns for the code field (falsy values already
      dropped); `lookup` gives the row count of a verification query (at
      most 5) or the error raised; `percent` formats a coverage ratio as
      `{:.0%}` does. */
  datatype Database = Database(
    tableNames: set<string>,
    columns: set<string>,
    samples: seq<string>,
    lookup: LookupQuery -> Result<nat, string>,
    percent: (nat, nat) -> string)

  function FieldCheck(name: CheckName, field: string, columns: set<string>): (c: Check)
    ensures c.name == name && (c.passed <==> field in columns)
  {
    Check(name, field in columns, if field in columns then NoDetail else FieldNotFound(field))
  }

  function CoverageCheck(e: Entry, db: Database): (c: Check)
    requires db.samples != []
    ensures c.name == PatternCoverage
    ensures c.passed <==> Covers(Hits(e.pattern, db.samples), |db.samples|)
  {
    var hits := Hits(e.pattern, db.samples);
    var ok := 5 * hits >= 4 * |db.samples|;
    Check(PatternCoverage, ok, Coverage(db.percent(hits, |db.samples|), ok))
  }

  /** `samples[0].strip().upper().split()[0]` */
  function SampleCode(samples: seq<string>): string
    requires samples != []
  {
    FirstToken(Upper(samples[0]))
  }

  function Query(e: Entry, code: string): LookupQuery {
    match e.matchMode
    case Exact => CodeEquals(e.table, e.codeField, code)
    case Prefix => CodeLike(e.table, e.codeField, (if |code| <= 4 then code else code[..4]) + "%")
  }

  function LookupCheck(e: Entry, db: Database): (c: Check)
    requires db.samples != []
    ensures c.name == SampleLookup
    ensures c.passed <==> (var r := db.lookup(Query(e, SampleCode(db.samples))); r.Ok? && r.value > 0)
  {
    var code := SampleCode(db.samples);
    match db.lookup(Query(e, code))
    case Ok(n) => Check(SampleLookup, n > 0, LookupCount(code, n))
    case Err(msg) => Check(SampleLookup, false, LookupError(msg))
  }

  function SourceCheck(e: Entry, columns: set<string>): (c: Check)
    ensures c.name == SourceCheckName(e)
    ensures c.passed <==>
      match e.source
      case CelexField => "celex_consolidated" in columns
      case StaticCelex(celex, url, _) => celex != "" && url != ""
  {
    match e.source
    case CelexField =>
      var ok := "celex_consolidated" in columns;
      Check(CelexFieldPresent, ok, if ok then NoDetail else CelexColumnMissing)
    case StaticCelex(celex, url, _) =>
      var ok := celex != "" && url != "";
      Check(StaticCelexConfigured, ok, if ok then NoDetail else StaticCelexMissing)
  }

  function FieldChecks(e: Entry, columns: set<string>): seq<Check> {
    [Check(TableExists, true, NoDetail)] + ColumnChecks(e, columns)
  }

  /** Step 2: the code field and the text field are looked up among the columns. */
  function ColumnChecks(e: Entry, columns: set<string>): (r: seq<Check>)
    ensures |r| == 2 && r[0].name == CodeFieldExists && r[1].name == TextFieldExists
    ensures (r[0].passed <==> e.codeField in columns) && (r[1].passed <==> e.textField in columns)
  {
    [FieldCheck(CodeFieldExists, e.codeField, columns), FieldCheck(TextFieldExists, e.textField, columns)]
  }

  /** Steps 4 to 6, run once the code field is known to hold data. */
  function SampleChecks(e: Entry, db: Database): (r: seq<Check>)
    requires db.samples != []
    ensures |r| == 3
    ensures r[0].name == PatternCoverage && r[1].name == SampleLookup && r[2].name == SourceCheckName(e)
    ensures r[0].passed <==> Covers(Hits(e.pattern, db.samples), |db.samples|)
    ensures r[1].passed <==> (var n := db.lookup(Query(e, SampleCode(db.samples))); n.Ok? && n.value > 0)
    ensures r[2].passed <==>
      match e.source
      case CelexField => "celex_consolidated" in db.columns
      case StaticCelex(celex, url, _) => celex != "" && url != ""
  {
    [CoverageCheck(e, db), LookupCheck(e, db), SourceCheck(e, db.columns)]
  }

  /** The order of the checks and the early stops, given the table names,
      the column names, the number of samples and the checks that depend on
      the samples. */
  function Sequence(e: Entry, tables: set<string>, columns: set<string>, sampleCount: nat, sampleChecks: seq<Check>)
    : seq<Check>
  {
    if e.table !in tables then [Check(TableExists, false, TableNotFound(e.table))]
    else if e.codeField !in columns then FieldChecks(e, columns)
    else if sampleCount == 0 then FieldChecks(e, columns) + [Check(HasData, false, NoData)]
    else FieldChecks(e, columns) + [Check(HasData, true, SamplesRead(sampleCount))] + sampleChecks
  }

  /** The checks `validate_registry_entry` runs, in order, stopping after a
      missing table, a missing code field, or no data. A first sample
      without a token makes `split()[0]` raise. */
  function ValidationChecks(e: Entry, db: Database): seq<Check>
    requires db.samples != [] ==> HasToken(db.samples[0])
  {
    Sequence(e, db.tableNames, db.columns, |db.samples|, if db.samples == [] then [] else SampleChecks(e, db))
  }

  /** `validate_registry_entry`: a fresh result whose checks are appended
      one by one, with an early return at each blocking failure. */
  method ValidateRegistryEntry(e: Entry, db: Database) returns (result: ScanResult)
    requires db.samples != [] ==> HasToken(db.samples[0])
    ensures fresh(result)
    ensures result.entryId == e.id && result.table == e.table && result.rowEstimate == 0
    ensures result.checks == ValidationChecks(e, db)
  {
    result := new ScanResult(e.id, e.table, 0);

    // 1. The table exists.
    if e.table !in db.tableNames {
      result.checks := result.checks + [Check(TableExists, false, TableNotFound(e.table))];
      return;
    }
    result.checks := result.checks + [Check(TableExists, true, NoDetail)];
    assert result.checks == [Check(TableExists, true, NoDetail)];

    // 2. The code and text fields exist.
    var codeOk := AppendFieldChecks(result, e, db.columns);
    if !codeOk {
      return;
    }

    // 3. The code field holds data.
    if db.samples == [] {
      result.checks := result.checks + [Check(HasData, false, NoData)];
      return;
    }
    result.checks := result.checks + [Check(HasData, true, SamplesRead(|db.samples|))];

    // 4. Pattern coverage, 5. verification lookup, 6. source consistency.
    AppendSampleChecks(result, e, db);
  }

  method AppendFieldChecks(result: ScanResult, e: Entry, columns: set<string>) returns (codeOk: bool)
    modifies result
    ensures codeOk <==> e.codeField in columns
    ensures result.checks == old(result.checks) + ColumnChecks(e, columns)
    ensures result.entryId == old(result.entryId) && result.table == old(result.table)
    ensures result.rowEstimate == old(result.rowEstimate)
  {
    codeOk := e.codeField in columns;
    var textOk := e.textField in columns;
    result.checks := result.checks + [Check(CodeFieldExists, codeOk, if codeOk then NoDetail else FieldNotFound(e.codeField))];
    result.checks := result.checks + [Check(TextFieldExists, textOk, if textOk then NoDetail else FieldNotFound(e.textField))];
  }

  method AppendSampleChecks(result: ScanResult, e: Entry, db: Database)
    requires db.samples != []
    modifies result
    ensures result.checks == old(result.checks) + SampleChecks(e, db)
    ensures result.entryId == old(result.entryId) && result.table == old(result.table)
    ensures result.rowEstimate == old(result.rowEstimate)
  {
    result.checks := result.checks + [CoverageCheck(e, db)];
    result.checks := result.checks + [LookupCheck(e, db)];
    result.checks := result.checks + [SourceCheck(e, db.columns)];
  }

  function SourceCheckName(e: Entry): CheckName {
    if e.source.CelexField? then CelexFieldPresent else StaticCelexConfigured
  }

  /** The checks in the order they are run. */
  function CheckOrder(e: Entry): seq<CheckName> {
    [TableExists, CodeFieldExists, TextFieldExists, HasData, PatternCoverage, SampleLookup, SourceCheckName(e)]
  }

  lemma SequenceInOrder(e: Entry, tables: set<string>, columns: set<string>, n: nat, tail: seq<Check>)
    requires tail == [] || (|tail| == 3 && tail[0].name == PatternCoverage && tail[1].name == SampleLookup
                            && tail[2].name == SourceCheckName(e))
    ensures var checks := Sequence(e, tables, columns, n, tail);
      && |checks| <= |CheckOrder(e)|
      && forall k :: 0 <= k < |checks| ==> checks[k].name == CheckOrder(e)[k]
  {
    var checks := Sequence(e, tables, columns, n, tail);
    var fields := FieldChecks(e, columns);
    if e.table in tables && e.codeField in columns {
      var data := if n == 0 then Check(HasData, false, NoData) else Check(HasData, true, SamplesRead(n));
      var rest := if n == 0 then [] else tail;
      assert checks == fields + [data] + rest;
      forall k | 0 <= k < |checks| ensures checks[k].name == CheckOrder(e)[k] {
        if k < 3 { assert checks[k] == fields[k]; }
        else if k > 3 { assert checks[k] == rest[k - 4]; }
      }
    }
  }

  /** The checks always follow the fixed order, possibly cut short: their
      names are a prefix of the full sequence. */
  lemma ChecksInOrder(e: Entry, db: Database)
    requires db.samples != [] ==> HasToken(db.samples[0])
    ensures var checks := ValidationChecks(e, db);
      && |checks| <= |CheckOrder(e)|
      && forall k :: 0 <= k < |checks| ==> checks[k].name == CheckOrder(e)[k]
  {
    if db.samples == [] {
      SequenceInOrder(e, db.tableNames, db.columns, 0, []);
    } else {
      SequenceInOrder(e, db.tableNames, db.columns, |db.samples|, SampleChecks(e, db));
    }
  }

  /** A missing table yields exactly one check, a failed one. */
  lemma TableMissing(e: Entry, db: Database)
    requires db.samples != [] ==> HasToken(db.samples[0])
    requires e.table !in db.tableNames
    ensures var checks := ValidationChecks(e, db);
      |checks| == 1 && checks[0].name == TableExists && !checks[0].passed && AnyFailed(checks)
  {
  }

  /** A missing code field stops after the two field checks; a missing text
      field alone does not stop the sequence. */
  lemma SequenceFields(e: Entry, tables: set<string>, columns: set<string>, n: nat, tail: seq<Check>)
    requires e.table in tables
    ensures var checks := Sequence(e, tables, columns, n, tail);
      && (e.codeField !in columns ==> |checks| == 3 && !checks[1].passed)
      && (e.codeField in columns && e.textField !in columns ==>
            |checks| >= 4 && !checks[2].passed && checks[3].name == HasData)
      && (e.codeField !in columns || e.textField !in columns ==> AnyFailed(checks))
  {
    var checks := Sequence(e, tables, columns, n, tail);
    if e.codeField !in columns {
      assert !checks[1].passed;
    } else if e.textField !in columns {
      assert !checks[2].passed;
    }
  }

  lemma FieldsMissing(e: Entry, db: Database)
    requires db.samples != [] ==> HasToken(db.samples[0])
    requires e.table in db.tableNames
    ensures var checks := ValidationChecks(e, db);
      && (e.codeField !in db.columns ==> |checks| == 3 && !checks[1].passed)
      && (e.codeField in db.columns && e.textField !in db.columns ==>
            |checks| >= 4 && !checks[2].passed && checks[3].name == HasData)
      && (e.codeField !in db.columns || e.textField !in db.columns ==> AnyFailed(checks))
  {
    var tail := if db.samples == [] then [] else SampleChecks(e, db);
    SequenceFields(e, db.tableNames, db.columns, |db.samples|, tail);
  }

  /** No samples stops the sequence right after a failed has_data. */
  lemma NoDataStops(e: Entry, db: Database)
    requires e.table in db.tableNames && e.codeField in db.columns && db.samples == []
    ensures var checks := ValidationChecks(e, db);
      |checks| == 4 && checks[3] == Check(HasData, false, NoData) && AnyFailed(checks)
  {
    var checks := ValidationChecks(e, db);
    assert !checks[3].passed;
  }

  lemma SequenceAllSteps(e: Entry, tables: set<string>, columns: set<string>, n: nat, tail: seq<Check>)
    requires e.table in tables && e.codeField in columns && n > 0 && |tail| == 3
    ensures var checks := Sequence(e, tables, columns, n, tail);
      && |checks| == 7 && checks[4..] == tail
      && (!AnyFailed(checks) <==> e.textField in columns && tail[0].passed && tail[1].passed && tail[2].passed)
  {
    var checks := Sequence(e, tables, columns, n, tail);
    assert checks[4..] == tail;
    if !AnyFailed(checks) {
      assert checks[2].passed && checks[4].passed && checks[5].passed && checks[6].passed;
    } else {
      var k :| 0 <= k < |checks| && !checks[k].passed;
      assert k != 0 && k != 1 && k != 3;
    }
  }

  /** When every step runs, the result is "ok" exactly when both fields
      exist, the pattern covers 80% of the samples, the lookup finds a row
      and the source is consistent. */
  lemma AllStepsRun(e: Entry, db: Database)
    requires db.samples != [] && HasToken(db.samples[0])
    requires e.table in db.tableNames && e.codeField in db.columns
    ensures var checks := ValidationChecks(e, db);
      |checks| == 7 &&
      (!AnyFailed(checks) <==>
        e.textField in db.columns
        && Covers(Hits(e.pattern, db.samples), |db.samples|)
        && (var n := db.lookup(Query(e, SampleCode(db.samples))); n.Ok? && n.value > 0)
        && match e.source
           case CelexField => "celex_consolidated" in db.columns
           case StaticCelex(celex, url, _) => celex != "" && url != "")
  {
    var tail := SampleChecks(e, db);
    SequenceAllSteps(e, db.tableNames, db.columns, |db.samples|, tail);
  }

  // ---------------------------------------------------------------------
  // Draft entries
  // ---------------------------------------------------------------------

  /** The profile of a table outside the registry. */
  datatype DraftEntry = DraftEntry(
    table: string,
    rowEstimate: int,
    codeField: Option<string>,
    textField: Option<string>,
    pattern: Option<Pattern>,
    matchMode: MatchMode,
    hasCelexField: bool,
    confidence: nat,
    notes: seq<string>,
    sampleCodes: seq<string>)

  const PLACEHOLDER: string := "???"

  datatype DraftSource = DraftCelexField | DraftStaticCelex(celex: string, url: string, caption: string)

  /** The registry entry a draft proposes, as the dict `_draft_dict` builds. */
  datatype DraftDict = DraftDict(
    id: string,
    table: string,
    codeField: string,
    textField: string,
    pattern: string,
    caption: string,
    matchMode: string,
    source: DraftSource)

  /** `x or "???"`: the value, or the placeholder when it is missing or empty. */
  function OrPlaceholder(x: Option<string>): (r: string)
    ensures x.Some? && x.value != "" ==> r == x.value
    ensures x.None? || x.value == "" ==> r == PLACEHOLDER
  {
    if x.Some? && x.value != "" then x.value else PLACEHOLDER
  }

  function PatternSource(p: Option<Pattern>): Option<string> {
    match p
    case Some(q) => Some(PatternText(q))
    case None => None
  }

  function DraftDictOf(d: DraftEntry): (r: DraftDict)
    ensures r.id == d.table && r.table == d.table
    ensures r.matchMode == ModeName(d.matchMode)
    ensures r.source.DraftCelexField? <==> d.hasCelexField
    ensures r.source.DraftStaticCelex? ==> r.source == DraftStaticCelex(PLACEHOLDER, PLACEHOLDER, PLACEHOLDER)
  {
    DraftDict(
      d.table, d.table,
      OrPlaceholder(d.codeField), OrPlaceholder(d.textField), OrPlaceholder(PatternSource(d.pattern)),
      Title(ReplaceChar(d.table, '_', ' ')),
      ModeName(d.matchMode),
      if d.hasCelexField then DraftCelexField else DraftStaticCelex(PLACEHOLDER, PLACEHOLDER, PLACEHOLDER))
  }

  /** A missing field or pattern becomes the placeholder; a detected
      pattern is written as its regular expression. */
  lemma DraftPlaceholders(d: DraftEntry)
    ensures (DraftDictOf(d).codeField == PLACEHOLDER) <==> (d.codeField.None? || d.codeField.value in {"", PLACEHOLDER})
    ensures (DraftDictOf(d).textField == PLACEHOLDER) <==> (d.textField.None? || d.textField.value in {"", PLACEHOLDER})
    ensures d.pattern.Some? ==> DraftDictOf(d).pattern == PatternText(d.pattern.value)
    ensures d.pattern.None? ==> DraftDictOf(d).pattern == PLACEHOLDER
  {
  }

  /** The label is the table name with "_" read as a space, title-cased:
      same length, each "_" turned into a space, a letter upper-cased at the
      start and after a non-letter and lower-cased after a letter. */
  lemma {:induction false} DraftLabel(d: DraftEntry)
    ensures |DraftDictOf(d).caption| == |d.table|
    ensures forall k :: 0 <= k < |d.table| && d.table[k] == '_' ==> DraftDictOf(d).caption[k] == ' '
    ensures var s := ReplaceChar(d.table, '_', ' ');
      forall k :: 0 <= k < |s| ==>
        DraftDictOf(d).caption[k] == (if k == 0 || !IsLetter(s[k - 1]) then UpperChar(s[k]) else LowerChar(s[k]))
  {
    var s := ReplaceChar(d.table, '_', ' ');
    TitleCases(s, false);
  }

  /** Each character of `TitleFrom` is the input's, upper-cased unless the
      character before it is a letter (or, for the first, `previousCased`). */
  lemma {:induction false} TitleCases(s: string, previousCased: bool)
    ensures |TitleFrom(s, previousCased)| == |s|
    ensures s != [] ==> TitleFrom(s, previousCased)[0] == (if previousCased then LowerChar(s[0]) else UpperChar(s[0]))
    ensures forall k :: 0 < k < |s| ==>
      TitleFrom(s, previousCased)[k] == (if IsLetter(s[k - 1]) then LowerChar(s[k]) else UpperChar(s[k]))
    ensures forall k :: 0 <= k < |s| && !IsLetter(s[k]) ==> TitleFrom(s, previousCased)[k] == s[k]
    decreases |s|
  {
    if s != [] {
      var t := TitleFrom(s, previousCased);
      TitleCases(s[1..], IsLetter(s[0]));
      forall k | 0 < k < |s|
        ensures t[k] == (if IsLetter(s[k - 1]) then LowerChar(s[k]) else UpperChar(s[k]))
      {
        assert t[k] == TitleFrom(s[1..], IsLetter(s[0]))[k - 1];
        assert s[k] == s[1..][k - 1];
        if k > 1 { assert s[k - 1] == s[1..][k - 2]; }
      }
    }
  }

  function Quoted(key: string, pad: string, value: string): string {
    "           \"" + key + "\":" + pad + "\"" + value + "\","
  }

  /** The value of a quoted line sits between the opening quote after the
      padding and the closing `",`. */
  lemma QuotedReadBack(key: string, pad: string, value: string)
    ensures var q := Quoted(key, pad, value);
      |q| == |key| + |pad| + |value| + 17 && q[|key| + |pad| + 15..|q| - 2] == value
  {
    var q := Quoted(key, pad, value);
    assert q == ("           \"" + key + "\":" + pad + "\"") + value + "\",";
  }

  const ENTRY_OPEN: string := "       {"
  const ENTRY_CLOSE: string := "       }"
  const CELEX_FIELD_SOURCE: string := "           \"source\":     {\"type\": \"celex_field\"},"
  const STATIC_SOURCE: seq<string> := [
    "           \"source\": {",
    "               \"type\":  \"static_celex\",",
    "               \"celex\": \"???\",  # \U{2190} da completare",
    "               \"url\":   \"???\",  # \U{2190} da completare",
    "               \"label\": \"???\",  # \U{2190} da completare",
    "           },"]

  /** `_format_draft_entry`: the draft as a block of Python source lines. */
  function FormatDraftEntry(d: DraftEntry): (lines: seq<string>)
    ensures d.hasCelexField ==> |lines| == 10 && lines[8] == CELEX_FIELD_SOURCE
    ensures !d.hasCelexField ==> |lines| == 15 && lines[8..14] == STATIC_SOURCE
    ensures lines[0] == ENTRY_OPEN && lines[|lines| - 1] == ENTRY_CLOSE
    ensures lines[1] == Quoted("id", "         ", d.table) && lines[2] == Quoted("table", "      ", d.table)
    ensures lines[3] == Quoted("code_field", " ", OrPlaceholder(d.codeField))
    ensures lines[4] == Quoted("text_field", " ", OrPlaceholder(d.textField))
    ensures lines[5] == "           \"pattern\":     r\"" + DraftDictOf(d).pattern + "\","
    ensures lines[6] == Quoted("label", "      ", DraftDictOf(d).caption)
    ensures lines[7] == Quoted("match_mode", " ", ModeName(d.matchMode))
  {
    var e := DraftDictOf(d);
    [ENTRY_OPEN,
     Quoted("id", "         ", e.id),
     Quoted("table", "      ", e.table),
     Quoted("code_field", " ", e.codeField),
     Quoted("text_field", " ", e.textField),
     "           \"pattern\":     r\"" + e.pattern + "\",",
     Quoted("label", "      ", e.caption),
     Quoted("match_mode", " ", e.matchMode)]
    + (if e.source.DraftCelexField? then [CELEX_FIELD_SOURCE] else STATIC_SOURCE)
    + [ENTRY_CLOSE]
  }
}
