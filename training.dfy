/**
 * Preparing the training data: the catalog is flattened into two parallel
 * lists, one entry per example pattern, each pattern paired with the tag of
 * the record it came from.
 */
module Training {
  import opened Intents

  /** Number of example patterns over all records. */
  function PatternCount(intents: seq<Intent>): nat
  {
    if |intents| == 0 then 0
    else PatternCount(intents[..|intents| - 1]) + |intents[|intents| - 1].patterns|
  }

  /** The training documents: every record's patterns, record after record. */
  function TrainingPatterns(intents: seq<Intent>): seq<string>
  {
    if |intents| == 0 then []
    else TrainingPatterns(intents[..|intents| - 1]) + intents[|intents| - 1].patterns
  }

  /** `n` copies of `tag`. */
  function Repeat(tag: string, n: nat): (r: seq<string>)
    ensures |r| == n && forall k :: 0 <= k < n ==> r[k] == tag
  {
    if n == 0 then [] else Repeat(tag, n - 1) + [tag]
  }

  /** The training labels: a record's tag once for each of its patterns. */
  function TrainingTags(intents: seq<Intent>): seq<string>
  {
    if |intents| == 0 then []
    else
      var last := intents[|intents| - 1];
      TrainingTags(intents[..|intents| - 1]) + Repeat(last.tag, |last.patterns|)
  }

  /** Position in the flattened lists of the first pattern of record `i`. */
  function Offset(intents: seq<Intent>, i: nat): nat
    requires i <= |intents|
  {
    PatternCount(intents[..i])
  }

  /**
   * The nested loop over records and their patterns, appending the record's
   * tag and the pattern to two growing lists.
   */
  method Flatten(intents: seq<Intent>) returns (tags: seq<string>, patterns: seq<string>)
    ensures tags == TrainingTags(intents)
    ensures patterns == TrainingPatterns(intents)
    ensures |tags| == |patterns| == PatternCount(intents)
  {
    tags, patterns := [], [];
    for i := 0 to |intents|
      invariant tags == TrainingTags(intents[..i])
      invariant patterns == TrainingPatterns(intents[..i])
    {
      var record := intents[i];
      for j := 0 to |record.patterns|
        invariant tags == TrainingTags(intents[..i]) + Repeat(record.tag, j)
        invariant patterns == TrainingPatterns(intents[..i]) + record.patterns[..j]
      {
        tags := tags + [record.tag];
        patterns := patterns + [record.patterns[j]];
      }
      assert record.patterns[..|record.patterns|] == record.patterns;
      assert intents[..i + 1][..i] == intents[..i];
    }
    assert intents[..|intents|] == intents;
    Lengths(intents);
  }

  /** Both lists have one entry per example pattern. */
  lemma {:induction false} Lengths(intents: seq<Intent>)
    ensures |TrainingTags(intents)| == |TrainingPatterns(intents)| == PatternCount(intents)
  {
    if |intents| > 0 {
      Lengths(intents[..|intents| - 1]);
    }
  }

  /** Flattening a concatenated catalog concatenates the flattened parts. */
  lemma {:induction false} FlattenAppend(a: seq<Intent>, b: seq<Intent>)
    ensures TrainingPatterns(a + b) == TrainingPatterns(a) + TrainingPatterns(b)
    ensures TrainingTags(a + b) == TrainingTags(a) + TrainingTags(b)
    ensures PatternCount(a + b) == PatternCount(a) + PatternCount(b)
  {
    if |b| > 0 {
      var b' := b[..|b| - 1];
      assert (a + b)[..|a + b| - 1] == a + b';
      FlattenAppend(a, b');
    } else {
      assert a + b == a;
    }
  }

  /** A single record flattens to its own patterns, each labelled with its tag. */
  lemma SingleRecord(r: Intent)
    ensures TrainingPatterns([r]) == r.patterns
    ensures TrainingTags([r]) == Repeat(r.tag, |r.patterns|)
  {
    assert [r][..0] == [];
  }

  /** Splitting the catalog around record `i` splits the flattened lists likewise. */
  lemma Split(intents: seq<Intent>, i: nat)
    requires i < |intents|
    ensures TrainingPatterns(intents)
      == TrainingPatterns(intents[..i]) + intents[i].patterns + TrainingPatterns(intents[i + 1..])
    ensures TrainingTags(intents)
      == TrainingTags(intents[..i]) + Repeat(intents[i].tag, |intents[i].patterns|) + TrainingTags(intents[i + 1..])
  {
    assert intents == intents[..i] + [intents[i]] + intents[i + 1..];
    FlattenAppend(intents[..i] + [intents[i]], intents[i + 1..]);
    FlattenAppend(intents[..i], [intents[i]]);
    SingleRecord(intents[i]);
  }

  /**
   * Pattern `j` of record `i` lands at position Offset(intents, i) + j of the
   * training documents, and the label at that position is the record's tag.
   */
  lemma PairedAt(intents: seq<Intent>, i: nat, j: nat)
    requires i < |intents| && j < |intents[i].patterns|
    ensures Offset(intents, i) + j < |TrainingPatterns(intents)| == |TrainingTags(intents)|
    ensures TrainingPatterns(intents)[Offset(intents, i) + j] == intents[i].patterns[j]
    ensures TrainingTags(intents)[Offset(intents, i) + j] == intents[i].tag
  {
    Split(intents, i);
    Lengths(intents[..i]);
    Lengths(intents);
  }

  /**
   * Conversely, every position of the flattened lists holds pattern `j` of
   * some record `i`, and the label there is that record's tag.
   */
  lemma {:induction false} EntryOwner(intents: seq<Intent>, k: nat) returns (i: nat, j: nat)
    requires k < |TrainingPatterns(intents)|
    ensures i < |intents| && j < |intents[i].patterns| && k == Offset(intents, i) + j
    ensures |TrainingTags(intents)| == |TrainingPatterns(intents)|
    ensures TrainingPatterns(intents)[k] == intents[i].patterns[j]
    ensures TrainingTags(intents)[k] == intents[i].tag
  {
    var n := |intents|;
    var init := intents[..n - 1];
    Lengths(init);
    if k < |TrainingPatterns(init)| {
      i, j := EntryOwner(init, k);
      assert init[..i] == intents[..i];
    } else {
      i, j := n - 1, k - |TrainingPatterns(init)|;
      assert intents[..i] == init;
    }
    PairedAt(intents, i, j);
  }

  /**
   * A tag occurs among the training labels exactly when some record with
   * that tag has at least one pattern.
   */
  lemma TrainedTag(intents: seq<Intent>, t: string)
    ensures t in TrainingTags(intents)
      <==> exists i :: 0 <= i < |intents| && intents[i].tag == t && |intents[i].patterns| > 0
  {
    if t in TrainingTags(intents) {
      var k :| 0 <= k < |TrainingTags(intents)| && TrainingTags(intents)[k] == t;
      Lengths(intents);
      var i, j := EntryOwner(intents, k);
    }
    if i :| 0 <= i < |intents| && intents[i].tag == t && |intents[i].patterns| > 0 {
      PairedAt(intents, i, 0);
    }
  }

  /**
   * A record without patterns contributes nothing: inserting one anywhere
   * in the catalog changes neither list.
   */
  lemma SilentRecord(pre: seq<Intent>, r: Intent, post: seq<Intent>)
    requires r.patterns == []
    ensures TrainingPatterns(pre + [r] + post) == TrainingPatterns(pre + post)
    ensures TrainingTags(pre + [r] + post) == TrainingTags(pre + post)
  {
    FlattenAppend(pre + [r], post);
    FlattenAppend(pre, [r]);
    FlattenAppend(pre, post);
    SingleRecord(r);
    assert Repeat(r.tag, 0) == [];
  }

  /**
   * "no_answer" has no patterns, so dropping it from the catalog changes no
   * training data, and no other record shares its tag, so it is never a label.
   */
  lemma NoAnswerUntrained()
    ensures TrainingPatterns(Catalog) == TrainingPatterns(Catalog[..11] + Catalog[12..])
    ensures TrainingTags(Catalog) == TrainingTags(Catalog[..11] + Catalog[12..])
    ensures "no_answer" !in TrainingTags(Catalog)
  {
    assert Catalog == Catalog[..11] + [Catalog[11]] + Catalog[12..];
    SilentRecord(Catalog[..11], Catalog[11], Catalog[12..]);
    TrainedTag(Catalog, "no_answer");
  }

  /**
   * The later records tagged "thanks" (index 10) and "goodbye" (index 13)
   * train the classifier toward the same tag as the earlier record `i`.
   */
  lemma DuplicatesTrained(i: nat, j: nat)
    requires (i == 2 && j == 10) || (i == 1 && j == 13)
    ensures Offset(Catalog, j) < |TrainingTags(Catalog)| == |TrainingPatterns(Catalog)|
    ensures TrainingTags(Catalog)[Offset(Catalog, j)] == Catalog[i].tag
    ensures TrainingPatterns(Catalog)[Offset(Catalog, j)] == Catalog[j].patterns[0]
  {
    CatalogShape();
    PairedAt(Catalog, j, 0);
  }
}
