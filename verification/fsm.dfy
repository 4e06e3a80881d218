/** The contract every tool's state machine follows: one step maps the current state, the tool's data
    and one input to the next state, the next data and an ordered list of responses; a run feeds inputs
    one at a time and keeps every response in order. */
module Fsm {

  datatype Step<S, D, R> = Step(state: S, data: D, responses: seq<R>)

  /** Feeds `inputs` to `step`, starting from state `s` and data `d`. */
  function Run<S, D, I, R>(step: (S, D, I) -> Step<S, D, R>, s: S, d: D, inputs: seq<I>): Step<S, D, R>
    decreases |inputs|
  {
    if |inputs| == 0 then Step(s, d, [])
    else
      var before := Run(step, s, d, inputs[..|inputs| - 1]);
      var after := step(before.state, before.data, inputs[|inputs| - 1]);
      Step(after.state, after.data, before.responses + after.responses)
  }

  /** Running two input sequences one after the other is running their concatenation. */
  lemma {:induction false} RunAppend<S, D, I, R>(step: (S, D, I) -> Step<S, D, R>, s: S, d: D, a: seq<I>, b: seq<I>)
    ensures var ra := Run(step, s, d, a);
      var rb := Run(step, ra.state, ra.data, b);
      Run(step, s, d, a + b) == Step(rb.state, rb.data, ra.responses + rb.responses)
    decreases |b|
  {
    if |b| == 0 {
      assert a + b == a;
    } else {
      assert (a + b)[..|a + b| - 1] == a + b[..|b| - 1];
      assert (a + b)[|a + b| - 1] == b[|b| - 1];
      RunAppend(step, s, d, a, b[..|b| - 1]);
    }
  }

  /** A single input is a single step. */
  lemma RunOne<S, D, I, R>(step: (S, D, I) -> Step<S, D, R>, s: S, d: D, input: I)
    ensures Run(step, s, d, [input]) == step(s, d, input)
  {
    assert [input][..0] == [];
    assert [] + step(s, d, input).responses == step(s, d, input).responses;
  }
}
