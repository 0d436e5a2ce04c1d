/**
 * Flattening of a generative-model response into one plain string
 * (`parse_response`): the texts of all text-bearing parts, across all
 * candidates in order, joined by newlines.
 */
module ResponseText {
  import opened Wrappers

  /** One part of a candidate's content; `text` is absent for non-text parts. */
  datatype Part = Part(text: Option<string>)

  datatype Content = Content(parts: seq<Part>)

  /** A response candidate; `content` is absent when the candidate carries none. */
  datatype Candidate = Candidate(content: Option<Content>)

  /** The part carries text: Python's truthiness of `getattr(part, "text", None)`. */
  predicate HasText(p: Part) {
    p.text.Some? && |p.text.value| > 0
  }

  /** The texts of a sequence of parts, in order. */
  function PartsTexts(ps: seq<Part>): (r: seq<string>)
    ensures |r| <= |ps|
  {
    if |ps| == 0 then []
    else if HasText(ps[|ps| - 1]) then PartsTexts(ps[..|ps| - 1]) + [ps[|ps| - 1].text.value]
    else PartsTexts(ps[..|ps| - 1])
  }

  function CandidateTexts(c: Candidate): (r: seq<string>)
  {
    if c.content.Some? then PartsTexts(c.content.value.parts) else []
  }

  /** The candidate contributes no text. */
  predicate Silent(c: Candidate) {
    |CandidateTexts(c)| == 0
  }

  /** The texts of all candidates, candidate by candidate, in order. */
  function CollectedTexts(cs: seq<Candidate>): (r: seq<string>)
  {
    if |cs| == 0 then [] else CollectedTexts(cs[..|cs| - 1]) + CandidateTexts(cs[|cs| - 1])
  }

  /** Python's `sep.join(xs)`. */
  function Join(xs: seq<string>, sep: string): (r: string)
  {
    if |xs| == 0 then ""
    else if |xs| == 1 then xs[0]
    else Join(xs[..|xs| - 1], sep) + sep + xs[|xs| - 1]
  }

  lemma PartsTextsStep(ps: seq<Part>, j: nat)
    requires j < |ps|
    ensures PartsTexts(ps[..j + 1]) ==
            if HasText(ps[j]) then PartsTexts(ps[..j]) + [ps[j].text.value] else PartsTexts(ps[..j])
  {
    assert ps[..j + 1][..j] == ps[..j];
  }

  lemma CollectedTextsStep(cs: seq<Candidate>, i: nat)
    requires i < |cs|
    ensures CollectedTexts(cs[..i + 1]) == CollectedTexts(cs[..i]) + CandidateTexts(cs[i])
  {
    assert cs[..i + 1][..i] == cs[..i];
  }

  /** The inner loop of `parse_response`: append the texts of one candidate's parts. */
  method AppendPartTexts(parts: seq<Part>, textParts: seq<string>) returns (extended: seq<string>)
    ensures extended == textParts + PartsTexts(parts)
  {
    extended := textParts;
    var j := 0;
    while j < |parts|
      invariant 0 <= j <= |parts|
      invariant extended == textParts + PartsTexts(parts[..j])
    {
      if HasText(parts[j]) {
        extended := extended + [parts[j].text.value];
      }
      PartsTextsStep(parts, j);
      j := j + 1;
    }
    assert parts[..|parts|] == parts;
  }

  /** `parse_response`: no candidates gives ""; otherwise the collected texts joined by "\n". */
  method ParseResponse(candidates: seq<Candidate>) returns (text: string)
    ensures candidates == [] ==> text == ""
    ensures text == Join(CollectedTexts(candidates), "\n")
  {
    if |candidates| == 0 {
      return "";
    }
    var textParts: seq<string> := [];
    var i := 0;
    while i < |candidates|
      invariant 0 <= i <= |candidates|
      invariant textParts == CollectedTexts(candidates[..i])
    {
      var cand := candidates[i];
      if cand.content.Some? {
        textParts := AppendPartTexts(cand.content.value.parts, textParts);
      }
      CollectedTextsStep(candidates, i);
      i := i + 1;
    }
    assert candidates[..|candidates|] == candidates;
    text := Join(textParts, "\n");
  }

  /** Order: the texts of a response split in two are the texts of the halves, concatenated. */
  lemma {:induction false} CollectedTextsAppend(a: seq<Candidate>, b: seq<Candidate>)
    ensures CollectedTexts(a + b) == CollectedTexts(a) + CollectedTexts(b)
    decreases |b|
  {
    if b == [] {
      assert a + b == a;
    } else {
      var b' := b[..|b| - 1];
      assert (a + b)[..|a + b| - 1] == a + b';
      assert (a + b)[|a + b| - 1] == b[|b| - 1];
      CollectedTextsAppend(a, b');
    }
  }

  /** No collected text of a part sequence is empty. */
  lemma {:induction false} PartsTextsNonEmpty(ps: seq<Part>)
    ensures forall k :: 0 <= k < |PartsTexts(ps)| ==> PartsTexts(ps)[k] != ""
  {
    if ps != [] {
      PartsTextsNonEmpty(ps[..|ps| - 1]);
    }
  }

  /** No collected text is empty: parts with a missing or empty text contribute nothing. */
  lemma {:induction false} CollectedTextsNonEmpty(cs: seq<Candidate>)
    ensures forall k :: 0 <= k < |CollectedTexts(cs)| ==> CollectedTexts(cs)[k] != ""
  {
    if cs != [] {
      CollectedTextsNonEmpty(cs[..|cs| - 1]);
      var last := cs[|cs| - 1];
      if last.content.Some? {
        PartsTextsNonEmpty(last.content.value.parts);
      }
    }
  }

  /** A candidate's parts give no text exactly when none of them carries text. */
  lemma {:induction false} PartsTextsEmptyIff(ps: seq<Part>)
    ensures |PartsTexts(ps)| == 0 <==> forall j :: 0 <= j < |ps| ==> !HasText(ps[j])
  {
    if ps != [] {
      var ps' := ps[..|ps| - 1];
      PartsTextsEmptyIff(ps');
      if exists j :: 0 <= j < |ps| && HasText(ps[j]) {
        var j :| 0 <= j < |ps| && HasText(ps[j]);
        if j < |ps'| {
          assert ps'[j] == ps[j];
        }
      } else {
        forall j | 0 <= j < |ps'| ensures !HasText(ps'[j]) {
          assert ps'[j] == ps[j];
        }
      }
    }
  }

  /** No text is collected exactly when no candidate contributes one. */
  lemma {:induction false} CollectedTextsEmptyIff(cs: seq<Candidate>)
    ensures |CollectedTexts(cs)| == 0 <==> forall i :: 0 <= i < |cs| ==> Silent(cs[i])
  {
    if |cs| > 0 {
      var cs' := cs[..|cs| - 1];
      CollectedTextsEmptyIff(cs');
      assert |CollectedTexts(cs)| == 0 <==> |CollectedTexts(cs')| == 0 && Silent(cs[|cs| - 1]);
      assert forall i :: 0 <= i < |cs'| ==> cs'[i] == cs[i];
    }
  }

  /** Joining texts none of which is empty gives "" exactly when there are no texts. */
  lemma {:induction false} JoinEmptyIff(xs: seq<string>, sep: string)
    requires forall k :: 0 <= k < |xs| ==> xs[k] != ""
    ensures Join(xs, sep) == "" <==> xs == []
  {
  }

  /** The flattened text is empty exactly when no candidate contributes a text. */
  lemma ParseResponseEmptyIff(cs: seq<Candidate>)
    ensures Join(CollectedTexts(cs), "\n") == "" <==>
            forall i :: 0 <= i < |cs| ==> Silent(cs[i])
  {
    CollectedTextsNonEmpty(cs);
    JoinEmptyIff(CollectedTexts(cs), "\n");
    CollectedTextsEmptyIff(cs);
  }
}
