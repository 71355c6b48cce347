/**
 * The registry of collateral tables (registry.py): a constant, ordered list
 * of entries, and the matcher that scans every entry's pattern over a query.
 */
module Registry {
  import opened Wrappers
  import opened Text
  import opened Patterns

  datatype MatchMode = Exact | Prefix

  /** Where the citation of a row comes from: a CELEX read from each row, or
      one fixed CELEX for the whole table. An empty `labelText` stands for a
      missing one. */
  datatype Source =
    | CelexField
    | StaticCelex(celex: string, url: string, labelText: string)

  datatype Entry = Entry(
    id: string,
    table: string,
    codeField: string,
    textField: string,
    pattern: Pattern,
    labelText: string,
    matchMode: MatchMode,
    displayCodeField: Option<string>,
    source: Source)

  /** One hit of the matcher: the entry and the upper-cased matched text. */
  datatype Match = Match(entry: Entry, code: string)

  function ModeName(m: MatchMode): string {
    match m
    case Exact => "exact"
    case Prefix => "prefix"
  }

  const DUAL_USE: Entry := Entry(
    "dual_use", "dual_use_items", "code", "description",
    CodeShape, "Bene a duplice uso", Exact, None, CelexField)

  const NOMENCLATURE: Entry := Entry(
    "nomenclature", "nomenclature", "goods_code", "description",
    DigitRun(4, 10), "Nomenclatura Combinata", Prefix, Some("goods_code"),
    StaticCelex(
      "31987R2658",
      "https://eur-lex.europa.eu/legal-content/IT/ALL/?uri=celex:31987R2658",
      "Nomenclatura Combinata (Reg. CEE 2658/87)"))

  const DUAL_USE_CORRELATIONS: Entry := Entry(
    "dual_use_correlations", "dual_use_correlations", "cn_codes_2026", "dual_use_codification",
    DigitRun(4, 10), "Dual Use Correlations", Prefix, Some("cn_codes_2026"),
    StaticCelex(
      "32021R0821",
      "https://eur-lex.europa.eu/legal-content/IT/TXT/?uri=CELEX:32021R0821",
      "Regolamento UE 2021/821 (Beni a duplice uso)"))

  /** Declaration order is the scan order. */
  const REGISTRY: seq<Entry> := [DUAL_USE, NOMENCLATURE, DUAL_USE_CORRELATIONS]

  function EntriesOf(ms: seq<Match>): seq<Entry> {
    seq(|ms|, k requires 0 <= k < |ms| => ms[k].entry)
  }

  /** `xs` is `ys` with some elements left out, order kept. */
  ghost predicate SubsequenceOf<T>(xs: seq<T>, ys: seq<T>)
    decreases |ys|
  {
    if xs == [] then true
    else if ys == [] then false
    else if xs[|xs| - 1] == ys[|ys| - 1] then SubsequenceOf(xs[..|xs| - 1], ys[..|ys| - 1])
    else SubsequenceOf(xs, ys[..|ys| - 1])
  }

  lemma {:induction false} SubsequenceExtend<T>(xs: seq<T>, ys: seq<T>, y: T)
    requires SubsequenceOf(xs, ys)
    ensures SubsequenceOf(xs, ys + [y])
    decreases |ys|, 1
  {
    var ys' := ys + [y];
    assert ys'[..|ys'| - 1] == ys;
    if xs != [] && xs[|xs| - 1] == y {
      // ys' matches the last element of xs against y: show the rest fits in ys.
      SubsequenceDropLast(xs, ys);
    }
  }

  lemma {:induction false} SubsequenceDropLast<T>(xs: seq<T>, ys: seq<T>)
    requires xs != [] && SubsequenceOf(xs, ys)
    ensures SubsequenceOf(xs[..|xs| - 1], ys)
    decreases |ys|, 0
  {
    var front := ys[..|ys| - 1];
    if xs[|xs| - 1] == ys[|ys| - 1] {
      SubsequenceExtend(xs[..|xs| - 1], front, ys[|ys| - 1]);
      assert front + [ys[|ys| - 1]] == ys;
    } else {
      SubsequenceDropLast(xs, front);
      SubsequenceExtend(xs[..|xs| - 1], front, ys[|ys| - 1]);
      assert front + [ys[|ys| - 1]] == ys;
    }
  }

  /** The matches of `entries` (in that order) on a non-empty query. */
  function Scan(entries: seq<Entry>, query: string): seq<Match>
    decreases |entries|
  {
    if entries == [] then []
    else
      var e := entries[|entries| - 1];
      var front := Scan(entries[..|entries| - 1], query);
      match Search(e.pattern, query)
      case Some(w) => front + [Match(e, Upper(w))]
      case None => front
  }

  /** `detect_code_from_registry` as a value. */
  function Detect(query: Option<string>): seq<Match> {
    if query.None? || query.value == "" then [] else Scan(REGISTRY, query.value)
  }

  /** The scan loop: every pattern is tried, in registry order, and each hit
      appends the entry with its upper-cased leftmost match. */
  method DetectCodeFromRegistry(query: Option<string>) returns (matches: seq<Match>)
    ensures query.None? || query == Some("") ==> matches == []
    ensures matches == Detect(query)
  {
    if query.None? || query.value == "" {
      return [];
    }
    var q := query.value;
    matches := [];
    var i := 0;
    while i < |REGISTRY|
      invariant 0 <= i <= |REGISTRY|
      invariant matches == Scan(REGISTRY[..i], q)
    {
      var entry := REGISTRY[i];
      assert REGISTRY[..i + 1][..i] == REGISTRY[..i];
      var found := Search(entry.pattern, q);
      if found.Some? {
        var code := Upper(found.value);
        matches := matches + [Match(entry, code)];
      }
      i := i + 1;
    }
    assert REGISTRY[..|REGISTRY|] == REGISTRY;
  }

  ghost predicate DistinctEntries(es: seq<Entry>) {
    forall a, b :: 0 <= a < b < |es| ==> es[a] != es[b]
  }

  /** The scan keeps the order of the entries: the matched entries form a
      subsequence of the list, so there are at most as many matches as entries. */
  lemma {:induction false} ScanKeepsOrder(es: seq<Entry>, q: string)
    ensures |Scan(es, q)| <= |es|
    ensures SubsequenceOf(EntriesOf(Scan(es, q)), es)
    decreases |es|
  {
    if es != [] {
      var e := es[|es| - 1];
      var es' := es[..|es| - 1];
      var front := Scan(es', q);
      ScanKeepsOrder(es', q);
      match Search(e.pattern, q)
      case Some(w) =>
        assert EntriesOf(Scan(es, q)) == EntriesOf(front) + [e];
      case None =>
        SubsequenceExtend(EntriesOf(front), es', e);
        assert es' + [e] == es;
    }
  }

  /** An entry of the list is matched iff its pattern occurs in the query,
      and every code is the upper-cased leftmost match of its entry's pattern. */
  lemma {:induction false} ScanHits(es: seq<Entry>, q: string)
    ensures forall m :: m in Scan(es, q) ==> m.entry in es
    ensures forall m :: m in Scan(es, q) ==>
              Search(m.entry.pattern, q).Some? && m.code == Upper(Search(m.entry.pattern, q).value)
    ensures forall e :: e in es && Occurs(e.pattern, q) ==> exists m :: m in Scan(es, q) && m.entry == e
    decreases |es|
  {
    if es != [] {
      var e := es[|es| - 1];
      var es' := es[..|es| - 1];
      var front := Scan(es', q);
      ScanHits(es', q);
      FoundIffOccurs(e.pattern, q);
      assert es == es' + [e];
      var r := Scan(es, q);
      assert forall m :: m in front ==> m in r;
      if Search(e.pattern, q).Some? {
        assert Match(e, Upper(Search(e.pattern, q).value)) in r;
      }
    }
  }

  /** The scan never reports an entry that did not match. */
  lemma HitsOccur(es: seq<Entry>, q: string)
    ensures forall m :: m in Scan(es, q) ==> m.entry in es && Occurs(m.entry.pattern, q) && NoLower(m.code)
  {
    ScanHits(es, q);
    forall m | m in Scan(es, q) ensures Occurs(m.entry.pattern, q) && NoLower(m.code) {
      FoundIffOccurs(m.entry.pattern, q);
      UpperHasNoLower(Search(m.entry.pattern, q).value);
    }
  }

  /** With distinct entries, no entry is reported twice. */
  lemma {:induction false} ScanDistinct(es: seq<Entry>, q: string)
    requires DistinctEntries(es)
    ensures DistinctEntries(EntriesOf(Scan(es, q)))
    decreases |es|
  {
    if es != [] {
      var e := es[|es| - 1];
      var es' := es[..|es| - 1];
      var front := Scan(es', q);
      ScanDistinct(es', q);
      ScanHits(es', q);
      if Search(e.pattern, q).Some? {
        assert EntriesOf(Scan(es, q)) == EntriesOf(front) + [e];
        assert e !in es';
        forall k | 0 <= k < |front| ensures front[k].entry != e {
          assert front[k] in front;
        }
      }
    }
  }

  /** On the actual registry the result has a fixed shape: the dual-use hit
      first (if any), then nomenclature and dual_use_correlations together,
      with the same code, since they share one pattern. */
  lemma DetectShape(q: string)
    requires q != ""
    ensures Detect(Some(q)) ==
      (if Found(CodeShape, q) then [Match(DUAL_USE, Upper(Search(CodeShape, q).value))] else [])
      + (if Found(DigitRun(4, 10), q)
         then [Match(NOMENCLATURE, Upper(Search(DigitRun(4, 10), q).value)),
               Match(DUAL_USE_CORRELATIONS, Upper(Search(DigitRun(4, 10), q).value))]
         else [])
  {
    var a := if Found(CodeShape, q) then [Match(DUAL_USE, Upper(Search(CodeShape, q).value))] else [];
    var n := Search(DigitRun(4, 10), q);
    assert [DUAL_USE][..0] == [];
    assert Scan([DUAL_USE], q) == a;
    assert [DUAL_USE, NOMENCLATURE][..1] == [DUAL_USE];
    assert Scan([DUAL_USE, NOMENCLATURE], q) == a + (if n.Some? then [Match(NOMENCLATURE, Upper(n.value))] else []);
    assert REGISTRY[..2] == [DUAL_USE, NOMENCLATURE];
  }

  /** nomenclature and dual_use_correlations are matched together or not at all. */
  lemma NumericEntriesTogether(q: Option<string>)
    ensures (exists m :: m in Detect(q) && m.entry == NOMENCLATURE)
        <==> (exists m :: m in Detect(q) && m.entry == DUAL_USE_CORRELATIONS)
  {
    if q.Some? && q.value != "" {
      NumericTail(q.value);
      if Found(DigitRun(4, 10), q.value) {
        var c := Upper(Search(DigitRun(4, 10), q.value).value);
        assert Match(NOMENCLATURE, c) in Detect(q);
        assert Match(DUAL_USE_CORRELATIONS, c) in Detect(q);
      }
    }
  }

  /** The two numeric tables are always matched with the same code. */
  lemma NumericEntriesShareCode(q: Option<string>)
    ensures forall m, n ::
              (m in Detect(q) && n in Detect(q) && m.entry == NOMENCLATURE && n.entry == DUAL_USE_CORRELATIONS)
              ==> m.code == n.code
  {
    if q.Some? && q.value != "" {
      NumericTail(q.value);
    }
  }

  /** The matches of the two numeric tables are those after the dual-use one. */
  lemma NumericTail(q: string)
    requires q != ""
    ensures var front := if Found(CodeShape, q) then [Match(DUAL_USE, Upper(Search(CodeShape, q).value))] else [];
      && (forall m :: m in front ==> m.entry == DUAL_USE)
      && (!Found(DigitRun(4, 10), q) ==> Detect(Some(q)) == front)
      && (Found(DigitRun(4, 10), q) ==>
            var c := Upper(Search(DigitRun(4, 10), q).value);
            Detect(Some(q)) == front + [Match(NOMENCLATURE, c), Match(DUAL_USE_CORRELATIONS, c)])
  {
    DetectShape(q);
  }

  /** A bare 4-10 digit code matches the two numeric tables and never dual_use. */
  lemma BareNumericCode(s: string)
    requires 4 <= |s| <= 10 && AllDigits(s)
    ensures Detect(Some(s)) == [Match(NOMENCLATURE, s), Match(DUAL_USE_CORRELATIONS, s)]
  {
    DetectShape(s);
    DigitsHaveNoCode(s);
    FoundIffOccurs(CodeShape, s);
    WholeWordFound(DigitRun(4, 10), s);
    assert Upper(s) == s;
  }

  /** A lone dual-use code matches dual_use only; lower case input is
      reported upper-cased. */
  lemma LoneDualUseCode(s: string)
    requires Shape(CodeShape, s)
    ensures Detect(Some(s)) == [Match(DUAL_USE, Upper(s))]
  {
    DetectShape(s);
    WholeWordFound(CodeShape, s);
    FoundIffOccurs(DigitRun(4, 10), s);
    ShapeIsWord(CodeShape, s);
    forall i, j ensures !MatchAt(DigitRun(4, 10), s, i, j) {
      if 0 <= i < j <= |s| {
        if i > 0 { assert IsWordChar(s[i - 1]); }
        if j < |s| { assert IsWordChar(s[j]); }
        if i == 0 && j == |s| {
          assert s[i..j] == s;
          CodeIsNoDigitRun(s, 4, 10);
        }
      }
    }
  }

  /** "2B002" is found by dual_use alone. */
  lemma DualUseExample()
    ensures Detect(Some("2B002")) == [Match(DUAL_USE, "2B002")]
  {
    var s := "2B002";
    assert Shape(CodeShape, s);
    LoneDualUseCode(s);
    assert Upper(s) == s;
  }

  /** Lower-case input is accepted and the code is reported upper-cased. */
  lemma LowerCaseDualUseExample()
    ensures Detect(Some("2b002")) == [Match(DUAL_USE, "2B002")]
  {
    var s := "2b002";
    assert Shape(CodeShape, s);
    LoneDualUseCode(s);
    assert Upper(s) == "2B002";
  }

  /** "8544" is found by both numeric tables. */
  lemma NumericExample()
    ensures Detect(Some("8544")) == [Match(NOMENCLATURE, "8544"), Match(DUAL_USE_CORRELATIONS, "8544")]
  {
    var s := "8544";
    assert AllDigits(s);
    BareNumericCode(s);
  }

  /** The registry's own invariants: unique ids, and every fixed-CELEX source
      has a CELEX and a URL. Match modes and source kinds are closed types. */
  lemma RegistryWellFormed()
    ensures forall a, b :: 0 <= a < b < |REGISTRY| ==> REGISTRY[a].id != REGISTRY[b].id
    ensures forall e :: e in REGISTRY && e.source.StaticCelex? ==>
              e.source.celex != "" && e.source.url != ""
    ensures DistinctEntries(REGISTRY)
  {
  }

  /** At most three matches, each entry at most once, in registry order. */
  lemma DetectIsOrderedSubset(q: Option<string>)
    ensures |Detect(q)| <= 3
    ensures SubsequenceOf(EntriesOf(Detect(q)), REGISTRY)
    ensures DistinctEntries(EntriesOf(Detect(q)))
  {
    if q.Some? && q.value != "" {
      RegistryWellFormed();
      ScanKeepsOrder(REGISTRY, q.value);
      ScanDistinct(REGISTRY, q.value);
    }
  }

  /** Every entry a scan reports is one of the list whose pattern occurs in the query. */
  lemma ScanReportsOccurrences(es: seq<Entry>, q: string)
    ensures forall e :: e in EntriesOf(Scan(es, q)) ==> e in es && Occurs(e.pattern, q)
  {
    var d := Scan(es, q);
    HitsOccur(es, q);
    forall e | e in EntriesOf(d) ensures e in es && Occurs(e.pattern, q) {
      var k :| 0 <= k < |d| && EntriesOf(d)[k] == e;
      assert d[k] in d;
    }
  }

  /** Every entry of the list whose pattern occurs in the query is reported. */
  lemma ScanFindsOccurrences(es: seq<Entry>, q: string)
    ensures forall e :: e in es && Occurs(e.pattern, q) ==> e in EntriesOf(Scan(es, q))
  {
    var d := Scan(es, q);
    ScanHits(es, q);
    forall e | e in es && Occurs(e.pattern, q) ensures e in EntriesOf(d) {
      var m :| m in d && m.entry == e;
      var k :| 0 <= k < |d| && d[k] == m;
      assert EntriesOf(d)[k] == e;
    }
  }

  /** A scan matches exactly the entries whose pattern occurs in the query. */
  lemma ScanMatchesOccurrences(es: seq<Entry>, q: string)
    ensures forall e :: e in EntriesOf(Scan(es, q)) <==> e in es && Occurs(e.pattern, q)
  {
    ScanReportsOccurrences(es, q);
    ScanFindsOccurrences(es, q);
  }

  /** A non-empty query matches exactly the registry entries whose pattern
      occurs in it. */
  lemma DetectMatchesOccurrences(q: string)
    requires q != ""
    ensures forall e :: e in EntriesOf(Detect(Some(q))) <==> e in REGISTRY && Occurs(e.pattern, q)
  {
    ScanMatchesOccurrences(REGISTRY, q);
  }
}
