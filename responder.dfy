/**
 * Answering a message: the classifier's predicted tag is looked up in the
 * catalog by a linear scan, and one response of the FIRST record carrying
 * that tag is picked.
 */
module Responder {
  import opened Wrappers
  import opened Intents
  import opened Training

  /** What one call of the responder yields. */
  datatype Answer =
    | Reply(text: string)   // a response of the matched record
    | NoIntent              // no record carries the tag: the function returns None
    | EmptyResponses        // the matched record has no responses: the random pick raises

  /**
   * Position of the first record whose tag is `tag`, scanning the catalog in
   * order, or None when the scan runs off the end.
   */
  function FirstMatch(intents: seq<Intent>, tag: string): (r: Option<nat>)
    ensures r.None? <==> forall i :: 0 <= i < |intents| ==> intents[i].tag != tag
    ensures r.Some? ==> r.value < |intents| && intents[r.value].tag == tag
    ensures r.Some? ==> forall i :: 0 <= i < r.value ==> intents[i].tag != tag
  {
    if |intents| == 0 then None
    else if intents[0].tag == tag then Some(0)
    else match FirstMatch(intents[1..], tag)
      case None => None
      case Some(i) => Some(i + 1)
  }

  /**
   * The random pick is an index supplied by the caller; it must lie within
   * the matched record's responses whenever there are any.
   */
  predicate PickInRange(intents: seq<Intent>, tag: string, pick: nat)
  {
    match FirstMatch(intents, tag)
    case None => true
    case Some(i) => |intents[i].responses| == 0 || pick < |intents[i].responses|
  }

  /** The response to a message the classifier labelled `tag`. */
  function Respond(intents: seq<Intent>, tag: string, pick: nat): (r: Answer)
    requires PickInRange(intents, tag, pick)
    ensures r.NoIntent? <==> forall i :: 0 <= i < |intents| ==> intents[i].tag != tag
    ensures r.Reply? ==>
      exists i :: 0 <= i < |intents| && intents[i].tag == tag
        && (forall h :: 0 <= h < i ==> intents[h].tag != tag)
        && r.text in intents[i].responses
    ensures r.EmptyResponses? ==>
      exists i :: 0 <= i < |intents| && intents[i].tag == tag
        && (forall h :: 0 <= h < i ==> intents[h].tag != tag)
        && |intents[i].responses| == 0
  {
    match FirstMatch(intents, tag)
    case None => NoIntent
    case Some(i) =>
      var choices := intents[i].responses;
      if |choices| == 0 then EmptyResponses else Reply(choices[pick])
  }

  /**
   * First match wins: if record `i` is the first with tag `tag`, the reply is
   * its response number `pick`, whatever later records share the tag.
   */
  lemma FirstRecordAnswers(intents: seq<Intent>, tag: string, i: nat, pick: nat)
    requires i < |intents| && intents[i].tag == tag
    requires forall h :: 0 <= h < i ==> intents[h].tag != tag
    requires pick < |intents[i].responses|
    ensures FirstMatch(intents, tag) == Some(i)
    ensures PickInRange(intents, tag, pick)
    ensures Respond(intents, tag, pick) == Reply(intents[i].responses[pick])
  {
  }

  /**
   * Every training label is found by the lookup, no later than any record
   * that contributed a pattern under it; when every record has responses,
   * the answer is a reply.
   */
  lemma TrainedTagResolves(intents: seq<Intent>, tag: string, pick: nat)
    requires tag in TrainingTags(intents)
    ensures FirstMatch(intents, tag).Some?
    ensures forall i :: 0 <= i < |intents| && intents[i].tag == tag && |intents[i].patterns| > 0 ==>
      FirstMatch(intents, tag).value <= i
    ensures PickInRange(intents, tag, pick) ==> !Respond(intents, tag, pick).NoIntent?
    ensures HasResponses(intents) && PickInRange(intents, tag, pick)
      ==> Respond(intents, tag, pick).Reply?
  {
    TrainedTag(intents, tag);
  }

  /**
   * Two records share a tag and the later one has patterns: the tag is a
   * training label, yet every reply for it comes from the earlier record.
   */
  lemma SharedTag(intents: seq<Intent>, i: nat, j: nat, pick: nat)
    requires i < j < |intents| && intents[i].tag == intents[j].tag
    requires forall h :: 0 <= h < i ==> intents[h].tag != intents[i].tag
    requires pick < |intents[i].responses| && |intents[j].patterns| > 0
    ensures Offset(intents, j) < |TrainingTags(intents)| == |TrainingPatterns(intents)|
    ensures TrainingTags(intents)[Offset(intents, j)] == intents[i].tag
    ensures TrainingPatterns(intents)[Offset(intents, j)] == intents[j].patterns[0]
    ensures Respond(intents, intents[i].tag, pick) == Reply(intents[i].responses[pick])
  {
    PairedAt(intents, j, 0);
    FirstRecordAnswers(intents, intents[i].tag, i, pick);
  }

  /**
   * The catalog's duplicated tags: "thanks" at indices 2 and 10 and
   * "goodbye" at indices 1 and 13. Whatever the later record contributes to
   * training, the reply is always response number `pick` of the earlier
   * one: never one of the later "thanks" responses, and never "Have a nice
   * day there", which only the later "goodbye" offers.
   */
  lemma CatalogDuplicates(i: nat, j: nat, pick: nat)
    requires (i == 2 && j == 10) || (i == 1 && j == 13)
    requires pick < |Catalog[i].responses|
    ensures Catalog[i].tag == Catalog[j].tag
    ensures PickInRange(Catalog, Catalog[i].tag, pick)
    ensures Respond(Catalog, Catalog[i].tag, pick) == Reply(Catalog[i].responses[pick])
    ensures i == 2 ==> Respond(Catalog, Catalog[i].tag, pick).text !in Catalog[10].responses
    ensures i == 1 ==> Respond(Catalog, Catalog[i].tag, pick).text != "Have a nice day there"
  {
    CatalogShape();
    FirstRecordAnswers(Catalog, Catalog[i].tag, i, pick);
    assert Catalog[i].responses[pick] in Catalog[i].responses;
  }
}
