/**
 * Inline keyboards: a list of buttons cut into consecutive rows of a fixed
 * size, the last row holding whatever is left over; the scenario picker uses
 * rows of three and the map picker rows of one.
 */
module Keyboard {

  /** An inline button: its label and the callback data it sends back when pressed. */
  datatype Button = Button(text: string, data: string)

  /** The warming scenarios offered, in display order. */
  const Scenarios: seq<string> := ["0.5", "1.0", "1.5", "2.0", "2.5", "3.0"]

  /** The rows `xs[0..n], xs[n..2n], ...`; the last row holds what is left. */
  function Chunks<T>(xs: seq<T>, n: nat): (rows: seq<seq<T>>)
    requires n > 0
    ensures forall i :: 0 <= i < |rows| ==> 0 < |rows[i]| <= n
    ensures forall i :: 0 <= i < |rows| - 1 ==> |rows[i]| == n
    ensures |rows| == 0 <==> |xs| == 0
    decreases |xs|
  {
    if |xs| == 0 then []
    else if |xs| <= n then [xs]
    else [xs[..n]] + Chunks(xs[n..], n)
  }

  /** The rows laid end to end. */
  function Flatten<T>(rows: seq<seq<T>>): seq<T> {
    if rows == [] then [] else rows[0] + Flatten(rows[1..])
  }

  /** Chunking keeps every button, in order: the rows laid end to end are the input. */
  lemma {:induction false} FlattenChunks<T>(xs: seq<T>, n: nat)
    requires n > 0
    ensures Flatten(Chunks(xs, n)) == xs
    decreases |xs|
  {
    if |xs| > n {
      var rest := Chunks(xs[n..], n);
      FlattenChunks(xs[n..], n);
      assert ([xs[..n]] + rest)[1..] == rest;
      assert xs == xs[..n] + xs[n..];
    }
  }

  /** Rows of one hold the items one by one, in their original order. */
  lemma {:induction false} ChunksOfOne<T>(xs: seq<T>)
    ensures |Chunks(xs, 1)| == |xs|
    ensures forall i :: 0 <= i < |xs| ==> Chunks(xs, 1)[i] == [xs[i]]
    decreases |xs|
  {
    if |xs| > 1 {
      ChunksOfOne(xs[1..]);
      assert Chunks(xs, 1) == [xs[..1]] + Chunks(xs[1..], 1);
    }
  }

  /** One button per scenario, labelled with the scenario and sending it back as its data. */
  function ScenarioButtons(): seq<Button> {
    seq(|Scenarios|, i requires 0 <= i < |Scenarios| => Button(Scenarios[i], Scenarios[i]))
  }

  /** The scenario picker sent by the location step. */
  function ScenarioKeyboard(): seq<seq<Button>> {
    Chunks(ScenarioButtons(), 3)
  }

  /** The six scenarios are laid out as exactly two rows of three. */
  lemma ScenarioKeyboardShape()
    ensures ScenarioKeyboard() == [
      [Button("0.5", "0.5"), Button("1.0", "1.0"), Button("1.5", "1.5")],
      [Button("2.0", "2.0"), Button("2.5", "2.5"), Button("3.0", "3.0")]]
  {
    var b := ScenarioButtons();
    assert b[..3] == [Button("0.5", "0.5"), Button("1.0", "1.0"), Button("1.5", "1.5")];
    assert b[3..] == [Button("2.0", "2.0"), Button("2.5", "2.5"), Button("3.0", "3.0")];
  }
}
