/** `_merge_text_chunks` (app/agno_runtime/agui_interface.py) and its fold `_merge_content_parts`. */
module ChatText {
  import opened Prelude

  predicate EndsWith(s: string, t: string) {
    |t| <= |s| && s[|s| - |t|..] == t
  }

  predicate IsSpace(c: char) {
    c == ' ' || c == '\n' || c == '\t'
  }

  /** The chunks meet at white space: the text ends with it or the chunk starts with it. */
  predicate MeetAtSpace(s: string, t: string) {
    (s != "" && IsSpace(s[|s| - 1])) || (t != "" && IsSpace(t[0]))
  }

  /** A sentence, clause or bracket ends here and the next text does not go on with punctuation. */
  predicate MeetAtPunctuation(s: string, t: string) {
    s != "" && t != "" && s[|s| - 1] in ".!?:;)]}" && t[0] !in ".,!?;:)]}"
  }

  /** _merge_text_chunks. */
  function Merge(existing: string, chunk: Option<string>): string {
    if chunk.None? || chunk.value == "" then existing
    else if existing == "" then chunk.value
    else if existing == chunk.value || EndsWith(existing, chunk.value) then existing
    else if MeetAtSpace(existing, chunk.value) then existing + chunk.value
    else if MeetAtPunctuation(existing, chunk.value) then existing + " " + chunk.value
    else existing + " " + chunk.value
  }

  function MergeParts(parts: seq<string>): string {
    if parts == [] then "" else Merge(MergeParts(parts[..|parts| - 1]), Some(parts[|parts| - 1]))
  }

  /** The loop of `_merge_content_parts`. */
  method MergeContentParts(parts: seq<string>) returns (merged: string)
    ensures merged == MergeParts(parts)
  {
    merged := "";
    for i := 0 to |parts|
      invariant merged == MergeParts(parts[..i])
    {
      assert parts[..i + 1][..i] == parts[..i];
      merged := Merge(merged, Some(parts[i]));
    }
    assert parts[..|parts|] == parts;
  }

  predicate OccursAt(s: string, t: string, i: nat) {
    i + |t| <= |s| && s[i..i + |t|] == t
  }

  /** t occurs in s as a contiguous block. */
  predicate Contains(s: string, t: string) {
    exists i | 0 <= i <= |s| :: OccursAt(s, t, i)
  }

  /** A merge keeps what was there and ends with the chunk, unless that is empty. */
  lemma MergeEndsWithChunk(existing: string, text: string)
    ensures existing <= Merge(existing, Some(text))
    ensures EndsWith(Merge(existing, Some(text)), text)
  {
  }

  /** A chunk delivered twice in a row is merged once. */
  lemma MergeTwiceIsOnce(existing: string, text: string)
    ensures Merge(Merge(existing, Some(text)), Some(text)) == Merge(existing, Some(text))
  {
    MergeEndsWithChunk(existing, text);
  }

  /** When a merge is plain concatenation: what a stream of exact deltas would need at every step. */
  lemma MergeConcatenatesIff(existing: string, text: string)
    ensures Merge(existing, Some(text)) == existing + text <==>
              || existing == "" || text == ""
              || (!EndsWith(existing, text) && (existing[|existing| - 1] in " \n\t" || text[0] in " \n\t"))
  {
    if existing != "" && text != "" {
      assert |existing + " " + text| == |existing + text| + 1;
      assert |existing| != |existing + text|;
    }
  }

  /**
   One space is put between two texts exactly when neither is empty, the first does not already end with the second,
   and they do not meet at white space; punctuation makes no difference.
   */
  lemma MergeSpacesIff(existing: string, text: string)
    ensures Merge(existing, Some(text)) == existing + " " + text <==>
              && existing != "" && text != "" && !EndsWith(existing, text)
              && existing[|existing| - 1] !in " \n\t" && text[0] !in " \n\t"
  {
    assert |existing + " " + text| == |existing| + |text| + 1 && |existing + text| == |existing| + |text|;
  }

  lemma BlockStaysInside(s: string, longer: string, t: string)
    requires s <= longer && Contains(s, t)
    ensures Contains(longer, t)
  {
    var i :| 0 <= i <= |s| && OccursAt(s, t, i);
    assert longer[..|s|][i..i + |t|] == longer[i..i + |t|];
    assert OccursAt(longer, t, i);
  }

  /** The merged text contains every piece as a contiguous block. */
  lemma {:induction false} EveryPieceIsContained(parts: seq<string>, k: nat)
    requires k < |parts|
    ensures Contains(MergeParts(parts), parts[k])
    decreases |parts|
  {
    var n := |parts| - 1;
    var before := MergeParts(parts[..n]);
    MergeEndsWithChunk(before, parts[n]);
    if k == n {
      var merged := MergeParts(parts);
      assert OccursAt(merged, parts[n], |merged| - |parts[n]|);
    } else {
      EveryPieceIsContained(parts[..n], k);
      BlockStaysInside(before, MergeParts(parts), parts[k]);
    }
  }

  /** Text shown earlier in a turn is a prefix of the text saved at its end. */
  lemma {:induction false} EarlierTextIsPrefix(parts: seq<string>, k: nat)
    requires k <= |parts|
    ensures MergeParts(parts[..k]) <= MergeParts(parts)
    decreases |parts|
  {
    if k < |parts| {
      var n := |parts| - 1;
      assert parts[..n][..k] == parts[..k];
      EarlierTextIsPrefix(parts[..n], k);
    } else {
      assert parts[..k] == parts;
    }
  }
}
