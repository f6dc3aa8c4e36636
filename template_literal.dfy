/**
 * A template literal seen as a row of numbered parts (fixed text, `${...}`
 * holes) that rendering turns into text and concatenates.  A template of
 * `n` parts is rendered by giving the text of each part `k < n`; the lemmas
 * say where each part's text lands in the rendered string.
 */
module TemplateLiteral {
  import opened Text

  /**
   * The texts of parts `i` up to (excluding) `j`, concatenated.  (`env` is
   * part of the measure only so that a range with literal bounds is not
   * unrolled for a symbolic environment.)
   */
  function RenderRange<E>(text: (E, nat) -> string, env: E, i: nat, j: nat): string
    requires i <= j
    decreases j - i, env
  {
    if i == j then "" else text(env, i) + RenderRange(text, env, i + 1, j)
  }

  /** The rendered template of `n` parts: all parts' texts, in order. */
  function Render<E>(n: nat, text: (E, nat) -> string, env: E): string {
    RenderRange(text, env, 0, n)
  }

  /** Where part `k` begins in the rendered text. */
  function PartOffset<E>(text: (E, nat) -> string, env: E, k: nat): nat {
    |RenderRange(text, env, 0, k)|
  }

  /** Rendering a range splits at any point inside it. */
  lemma {:induction false} RenderRangeSplit<E>(text: (E, nat) -> string, env: E, i: nat, k: nat, j: nat)
    requires i <= k <= j
    ensures RenderRange(text, env, i, j) == RenderRange(text, env, i, k) + RenderRange(text, env, k, j)
    decreases k - i
  {
    if i < k {
      RenderRangeSplit(text, env, i + 1, k, j);
    }
  }

  /** Part `k`'s text sits in the rendered template at `PartOffset(text, env, k)`. */
  lemma RenderHasPart<E>(n: nat, text: (E, nat) -> string, env: E, k: nat)
    requires k < n
    ensures OccursAt(Render(n, text, env), text(env, k), PartOffset(text, env, k))
  {
    RenderRangeSplit(text, env, 0, k, n);
    var t := text(env, k);
    assert OccursAt(t, t, 0);
    OccursBefore(t, RenderRange(text, env, k + 1, n), t, 0);
    OccursAfter(RenderRange(text, env, 0, k), RenderRange(text, env, k, n), t, 0);
  }

  /** The next part begins where part `k` ends. */
  lemma PartOffsetNext<E>(text: (E, nat) -> string, env: E, k: nat)
    ensures PartOffset(text, env, k + 1) == PartOffset(text, env, k) + |text(env, k)|
  {
    RenderRangeSplit(text, env, 0, k, k + 1);
  }

  /** Later parts begin no earlier: the order of the parts is the order of their texts. */
  lemma PartOffsetMonotone<E>(text: (E, nat) -> string, env: E, i: nat, j: nat)
    requires i <= j
    ensures PartOffset(text, env, i) <= PartOffset(text, env, j)
  {
    RenderRangeSplit(text, env, 0, i, j);
  }

  /**
   * The parts `i` up to (excluding) `j` stand together, rendered, at part
   * `i`'s offset, and part `j` begins right after them.
   */
  lemma RangeAt<E>(n: nat, text: (E, nat) -> string, env: E, i: nat, j: nat)
    requires i <= j <= n
    ensures OccursAt(Render(n, text, env), RenderRange(text, env, i, j), PartOffset(text, env, i))
    ensures PartOffset(text, env, j) == PartOffset(text, env, i) + |RenderRange(text, env, i, j)|
  {
    RenderRangeSplit(text, env, 0, i, n);
    RenderRangeSplit(text, env, i, j, n);
    RenderRangeSplit(text, env, 0, i, j);
    var t := RenderRange(text, env, i, j);
    assert OccursAt(t, t, 0);
    OccursBefore(t, RenderRange(text, env, j, n), t, 0);
    OccursAfter(RenderRange(text, env, 0, i), RenderRange(text, env, i, n), t, 0);
  }

  /** Two consecutive parts rendered. */
  lemma RangeTwo<E>(text: (E, nat) -> string, env: E, i: nat)
    ensures RenderRange(text, env, i, i + 2) == text(env, i) + text(env, i + 1)
  {
    assert RenderRange(text, env, i + 1, i + 2) == text(env, i + 1);
  }

  /** Three consecutive parts rendered. */
  lemma RangeThree<E>(text: (E, nat) -> string, env: E, i: nat)
    ensures RenderRange(text, env, i, i + 3) == text(env, i) + text(env, i + 1) + text(env, i + 2)
  {
    RangeTwo(text, env, i + 1);
  }

  /** Four consecutive parts rendered. */
  lemma RangeFour<E>(text: (E, nat) -> string, env: E, i: nat)
    ensures RenderRange(text, env, i, i + 4) == text(env, i) + text(env, i + 1) + text(env, i + 2) + text(env, i + 3)
  {
    RangeThree(text, env, i + 1);
  }
}
