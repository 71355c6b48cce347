/**
 * The deterministic query rewrite of query_normalizer.py: an intent-keyed
 * prefix, and for procedural questions an ordered removal of
 * conversational fragments. Every fragment pattern there is a literal (the
 * last one, `\?`, is the literal "?"), so `re.sub(p, "", s)` is modelled as
 * removing the non-overlapping occurrences of a string, left to right.
 */
module QueryNormalizer {
  import opened Text
  import opened Retrieval

  const FRAGMENTS: seq<string> :=
    ["cosa devo fare per", "cosa devo fare", "come devo", "devo", "come posso", "posso", "?"]

  const PROCEDURAL_PREFIX: string := "obblighi e autorizzazioni relativi a "
  const CLASSIFICATION_PREFIX: string := "classificazione normativa e allegati relativi a "

  /** `re.sub(frag, "", s)` for a literal, non-empty `frag`: one left-to-right
      pass that drops each occurrence found and resumes after it. */
  function RemoveAll(s: string, frag: string): (r: string)
    requires frag != []
    ensures |r| <= |s|
    decreases |s|
  {
    if s == [] then []
    else if StartsWith(s, frag) then RemoveAll(s[|frag|..], frag)
    else [s[0]] + RemoveAll(s[1..], frag)
  }

  /** The fragments removed one after the other, in list order. */
  function RemoveEach(s: string, frags: seq<string>): string
    requires forall k :: 0 <= k < |frags| ==> frags[k] != []
    decreases |frags|
  {
    if frags == [] then s
    else RemoveAll(RemoveEach(s, frags[..|frags| - 1]), frags[|frags| - 1])
  }

  /** What `_remove_procedural_phrases` computes. */
  function CleanedPhrases(query: string): string {
    Strip(RemoveEach(Lower(query), FRAGMENTS))
  }

  /** `_remove_procedural_phrases`: lower-case, remove each fragment in turn,
      strip. The result has no "?" and no upper-case letter. */
  method RemoveProceduralPhrases(query: string) returns (cleaned: string)
    ensures cleaned == CleanedPhrases(query)
    ensures NoUpper(cleaned)
    ensures '?' !in cleaned
  {
    cleaned := Lower(query);
    var i := 0;
    while i < |FRAGMENTS|
      invariant 0 <= i <= |FRAGMENTS|
      invariant cleaned == RemoveEach(Lower(query), FRAGMENTS[..i])
    {
      assert FRAGMENTS[..i + 1][..i] == FRAGMENTS[..i];
      cleaned := RemoveAll(cleaned, FRAGMENTS[i]);
      i := i + 1;
    }
    assert FRAGMENTS[..i] == FRAGMENTS;
    cleaned := Strip(cleaned);
    CleanedPhrasesAreClean(query);
  }

  /** Removal only ever deletes characters. */
  lemma {:induction false} RemoveAllKeepsChars(s: string, frag: string)
    requires frag != []
    ensures forall c :: c in RemoveAll(s, frag) ==> c in s
    decreases |s|
  {
    if s != [] {
      if StartsWith(s, frag) {
        RemoveAllKeepsChars(s[|frag|..], frag);
      } else {
        RemoveAllKeepsChars(s[1..], frag);
      }
    }
  }

  /** Removing a one-character fragment removes every copy of that character. */
  lemma {:induction false} RemoveAllOfChar(s: string, c: char)
    ensures c !in RemoveAll(s, [c])
    decreases |s|
  {
    if s != [] {
      if StartsWith(s, [c]) {
        RemoveAllOfChar(s[1..], c);
      } else {
        assert s[0] != c;
        RemoveAllOfChar(s[1..], c);
      }
    }
  }

  lemma {:induction false} RemoveEachKeepsChars(s: string, frags: seq<string>)
    requires forall k :: 0 <= k < |frags| ==> frags[k] != []
    ensures forall c :: c in RemoveEach(s, frags) ==> c in s
    decreases |frags|
  {
    if frags != [] {
      RemoveEachKeepsChars(s, frags[..|frags| - 1]);
      RemoveAllKeepsChars(RemoveEach(s, frags[..|frags| - 1]), frags[|frags| - 1]);
    }
  }

  lemma StripKeepsChars(s: string)
    ensures forall c :: c in Strip(s) ==> c in s
  {
    StripIsSlice(s);
    var i, j :| 0 <= i <= j <= |s| && Strip(s) == s[i..j];
    SliceKeepsChars(s, i, j);
  }

  lemma SliceKeepsChars(s: string, i: nat, j: nat)
    requires i <= j <= |s|
    ensures forall c :: c in s[i..j] ==> c in s
  {
    forall c | c in s[i..j] ensures c in s {
      var k :| 0 <= k < j - i && s[i..j][k] == c;
      assert s[i + k] == c;
    }
  }

  /** The cleaned text is lower-case and free of question marks. */
  lemma CleanedPhrasesAreClean(query: string)
    ensures NoUpper(CleanedPhrases(query))
    ensures '?' !in CleanedPhrases(query)
  {
    var lowered := Lower(query);
    var front := RemoveEach(lowered, FRAGMENTS[..6]);
    assert FRAGMENTS[..7][..6] == FRAGMENTS[..6];
    assert FRAGMENTS[..7] == FRAGMENTS;
    assert RemoveEach(lowered, FRAGMENTS) == RemoveAll(front, "?");
    LowerHasNoUpper(query);
    RemoveEachKeepsChars(lowered, FRAGMENTS);
    RemoveAllOfChar(front, '?');
    StripKeepsChars(RemoveEach(lowered, FRAGMENTS));
    forall k | 0 <= k < |CleanedPhrases(query)| ensures !IsUpper(CleanedPhrases(query)[k]) {
      var c := CleanedPhrases(query)[k];
      assert c in RemoveEach(lowered, FRAGMENTS);
      assert c in lowered;
    }
  }

  /** One `re.sub` pass does not reach a fixpoint: removing "devo" from
      "dedevovo" joins the two halves into a new "devo", which survives. */
  lemma DevoJoins()
    ensures FRAGMENTS[3] == "devo"
    ensures RemoveAll("dedevovo", "devo") == "devo"
  {
    var s := "dedevovo";
    assert s[..4][2] != "devo"[2];
    assert s[1..][..4][0] != "devo"[0];
    assert StartsWith(s[2..], "devo");
    assert s[2..][4..] == "vo";
    NoLongFragment("vo", "devo");
    assert RemoveAll(s[2..], "devo") == "vo";
    assert RemoveAll(s[1..], "devo") == "evo";
  }

  /** A fragment longer than the text is never found in it. */
  lemma {:induction false} NoLongFragment(s: string, frag: string)
    requires |frag| > |s|
    ensures RemoveAll(s, frag) == s
    decreases |s|
  {
    if s != [] {
      NoLongFragment(s[1..], frag);
      assert [s[0]] + s[1..] == s;
    }
  }

  /** `normalize_query`, with `_remove_procedural_phrases` as its
      specification function. A falsy query is returned as it is. */
  function NormalizeQuery(query: string, intent: Intent): (r: string)
    ensures query == "" ==> r == ""
  {
    if query == "" then query
    else
      var original := Strip(query);
      if intent == Procedural then PROCEDURAL_PREFIX + CleanedPhrases(original)
      else if intent == Classification then CLASSIFICATION_PREFIX + original
      else original
  }

  /** PROCEDURAL: the legal-style prefix, then the cleaned question, which
      holds no "?" and no upper-case letter. */
  lemma NormalizeProcedural(query: string)
    requires query != ""
    ensures var r := NormalizeQuery(query, Procedural);
      && StartsWith(r, PROCEDURAL_PREFIX)
      && r[|PROCEDURAL_PREFIX|..] == CleanedPhrases(Strip(query))
      && NoUpper(r[|PROCEDURAL_PREFIX|..])
      && '?' !in r[|PROCEDURAL_PREFIX|..]
  {
    var r := NormalizeQuery(query, Procedural);
    assert r[..|PROCEDURAL_PREFIX|] == PROCEDURAL_PREFIX;
    CleanedPhrasesAreClean(Strip(query));
  }

  /** CLASSIFICATION keeps the stripped question verbatim, case included,
      after its prefix; every other intent returns the stripped question. */
  lemma NormalizeKeepsQuestion(query: string, intent: Intent)
    requires query != "" && intent != Procedural
    ensures var r := NormalizeQuery(query, intent);
      && (intent == Classification ==>
            StartsWith(r, CLASSIFICATION_PREFIX) && r[|CLASSIFICATION_PREFIX|..] == Strip(query))
      && (intent != Classification ==> r == Strip(query))
      && (exists i :: 0 <= i <= |r| && r[i..] == Strip(query))
  {
    var r := NormalizeQuery(query, intent);
    if intent == Classification {
      assert r[..|CLASSIFICATION_PREFIX|] == CLASSIFICATION_PREFIX;
      assert r[|CLASSIFICATION_PREFIX|..] == Strip(query);
    } else {
      assert r[0..] == r;
    }
  }
}
