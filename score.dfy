/** Per-iteration materialisation of the pulse scores: a fresh copy of the
    score template in which, for every structure position past the three
    physical axes, each `{name}` placeholder of that axis is replaced by the
    text of its current value, in every wired channel's score. */
module Score {
  import opened Text

  /** A DAC channel's key in the score map: `CH<slot>-<channel>` in
      Single_Qubit, `CH<channel>` in Qubits (the key text is abstracted to
      its numbers). */
  datatype Channel = Slotted(slot: nat, channel: nat) | Numbered(channel: nat)

  type ScoreMap = map<Channel, string>

  /** Structure positions before this one are the physical axes (bias, XY-LO,
      RO-LO) and are never substituted into the scores (`if j > 2`). */
  const FirstTemplateAxis: nat := 3

  function Placeholder(name: string): string
  {
    "{" + name + "}"
  }

  /** `text.replace("{name}", value)`. */
  function Substitute(text: string, name: string, value: string): string
  {
    Replace(text, Placeholder(name), value)
  }

  /** Every wired channel has a score. */
  predicate Wired(score: ScoreMap, chans: seq<Channel>)
  {
    forall c :: c in chans ==> c in score
  }

  /** No channel is wired twice. */
  predicate Distinct(chans: seq<Channel>)
  {
    forall a, b :: 0 <= a < b < |chans| ==> chans[a] != chans[b]
  }

  /** The score map after one axis has been substituted into the first `k`
      wired channels, in wiring order. */
  function SubstitutePrefix(score: ScoreMap, chans: seq<Channel>, k: nat, name: string, value: string): (m: ScoreMap)
    requires k <= |chans| && Wired(score, chans)
    ensures m.Keys == score.Keys
  {
    if k == 0 then score
    else
      var m := SubstitutePrefix(score, chans, k - 1, name, value);
      m[chans[k - 1] := Substitute(m[chans[k - 1]], name, value)]
  }

  /** The score map after the axis loop has handled structure positions `< j`. */
  function MaterialisedUpTo(template: ScoreMap, structure: seq<string>, values: seq<string>,
                            chans: seq<Channel>, j: nat): (m: ScoreMap)
    requires |values| == |structure| && j <= |structure| && Wired(template, chans)
    ensures m.Keys == template.Keys
  {
    if j == 0 then template
    else
      var m := MaterialisedUpTo(template, structure, values, chans, j - 1);
      if j - 1 >= FirstTemplateAxis then SubstitutePrefix(m, chans, |chans|, structure[j - 1], values[j - 1])
      else m
  }

  /** The iteration's score map, `values[j]` being the text of axis `j`'s current value. */
  function Materialised(template: ScoreMap, structure: seq<string>, values: seq<string>,
                        chans: seq<Channel>): ScoreMap
    requires |values| == |structure| && Wired(template, chans)
  {
    MaterialisedUpTo(template, structure, values, chans, |structure|)
  }

  /** One channel's text after the template axes at positions `< j` were substituted in order. */
  function AxesApplied(text: string, structure: seq<string>, values: seq<string>, j: nat): string
    requires |values| == |structure| && j <= |structure|
  {
    if j == 0 then text
    else
      var t := AxesApplied(text, structure, values, j - 1);
      if j - 1 >= FirstTemplateAxis then Substitute(t, structure[j - 1], values[j - 1]) else t
  }

  /** The rewriting loop of one axis touches each wired channel once and no other entry. */
  lemma {:induction false} SubstitutePrefixAt(score: ScoreMap, chans: seq<Channel>, k: nat,
                                              name: string, value: string, c: Channel)
    requires k <= |chans| && Wired(score, chans) && Distinct(chans) && c in score
    ensures SubstitutePrefix(score, chans, k, name, value)[c]
            == if c in chans[..k] then Substitute(score[c], name, value) else score[c]
  {
    if k > 0 {
      SubstitutePrefixAt(score, chans, k - 1, name, value, c);
      assert chans[..k] == chans[..k - 1] + [chans[k - 1]];
      if c == chans[k - 1] {
        assert c !in chans[..k - 1];
      }
    }
  }

  /** Channel view of the materialised map: a wired channel's score is its
      template text with every template axis substituted in structure order;
      every other entry is the template's. */
  lemma {:induction false} MaterialisedAt(template: ScoreMap, structure: seq<string>, values: seq<string>,
                                          chans: seq<Channel>, j: nat, c: Channel)
    requires |values| == |structure| && j <= |structure| && Wired(template, chans) && Distinct(chans)
    requires c in template
    ensures MaterialisedUpTo(template, structure, values, chans, j)[c]
            == if c in chans then AxesApplied(template[c], structure, values, j) else template[c]
  {
    if j > 0 {
      MaterialisedAt(template, structure, values, chans, j - 1, c);
      if j - 1 >= FirstTemplateAxis {
        var m := MaterialisedUpTo(template, structure, values, chans, j - 1);
        SubstitutePrefixAt(m, chans, |chans|, structure[j - 1], values[j - 1], c);
        assert chans[..|chans|] == chans;
      }
    }
  }

  /** Text that holds none of the template axes' placeholders comes through unchanged. */
  lemma {:induction false} AxesAppliedAbsent(text: string, structure: seq<string>, values: seq<string>, j: nat)
    requires |values| == |structure| && j <= |structure|
    requires forall k :: FirstTemplateAxis <= k < j ==> !Contains(text, Placeholder(structure[k]))
    ensures AxesApplied(text, structure, values, j) == text
  {
    if j > 0 {
      AxesAppliedAbsent(text, structure, values, j - 1);
      if j - 1 >= FirstTemplateAxis {
        ReplaceAbsent(text, Placeholder(structure[j - 1]), values[j - 1]);
      }
    }
  }

  /** With no structure position past the physical axes, the scores are the template's. */
  lemma {:induction false} NoTemplateAxes(template: ScoreMap, structure: seq<string>, values: seq<string>,
                                          chans: seq<Channel>, j: nat)
    requires |values| == |structure| && j <= |structure| <= FirstTemplateAxis && Wired(template, chans)
    ensures MaterialisedUpTo(template, structure, values, chans, j) == template
  {
    if j > 0 {
      NoTemplateAxes(template, structure, values, chans, j - 1);
    }
  }

  /** One substitution step is the split-and-join of Python's `str.replace`:
      the text is cut at the leftmost occurrences of the placeholder and the
      pieces are rejoined with the value, so every occurrence the scan finds
      is replaced and the text between occurrences is kept. */
  lemma SubstituteSegments(text: string, name: string, value: string)
    ensures var segs := Split(text, Placeholder(name));
            && Join(segs, Placeholder(name)) == text
            && Leftmost(segs, Placeholder(name))
            && Substitute(text, name, value) == Join(segs, value)
  {
    SplitJoin(text, Placeholder(name));
    SplitIsLeftmost(text, Placeholder(name));
    ReplaceIsJoinOfSplit(text, Placeholder(name), value);
  }

  /** The innermost loop of the rewriting of SCORE_DEFINED: one axis's
      placeholder is replaced, in place, in every wired channel's entry. */
  method SubstituteAxis(score: ScoreMap, chans: seq<Channel>, name: string, value: string)
    returns (updated: ScoreMap)
    requires Wired(score, chans)
    ensures updated == SubstitutePrefix(score, chans, |chans|, name, value)
  {
    updated := score;
    for k := 0 to |chans|
      invariant updated == SubstitutePrefix(score, chans, k, name, value)
    {
      updated := updated[chans[k] := Substitute(updated[chans[k]], name, value)];
    }
  }

  /** The rewriting of SCORE_DEFINED at one index: for every structure
      position past the physical axes, that axis's placeholder is replaced by
      its current value in every wired channel's score. */
  method MaterialiseScores(template: ScoreMap, structure: seq<string>, values: seq<string>, chans: seq<Channel>)
    returns (score: ScoreMap)
    requires |values| == |structure| && Wired(template, chans)
    ensures score == Materialised(template, structure, values, chans)
  {
    score := template;
    for j := 0 to |structure|
      invariant score == MaterialisedUpTo(template, structure, values, chans, j)
    {
      if j >= FirstTemplateAxis {
        score := SubstituteAxis(score, chans, structure[j], values[j]);
      }
    }
  }
}
