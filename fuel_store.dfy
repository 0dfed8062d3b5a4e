/**
  The FIFO fuel store (`std::queue<int> fuel_storage`) shared by the
  power-station programs: a producer thread adds one randomly marked unit a
  second while the store holds fewer than 20, and trucks or the storage
  server take units from the front.
 */
module FuelStore {

  /** The producer stops adding once the store holds this many units. */
  const Capacity := 20
  /** Units put in the store before any thread starts. */
  const InitialFill := 10

  /** The marks `rand() % 10 + 1` can produce. */
  predicate IsMark(x: int) {
    1 <= x <= 10
  }

  predicate AllMarks(q: seq<int>) {
    forall i :: 0 <= i < |q| ==> IsMark(q[i])
  }

  /** A store the programs can reach: within capacity, every unit a mark. */
  predicate Stocked(q: seq<int>) {
    |q| <= Capacity && AllMarks(q)
  }

  /** One round of the producer thread with `mark` as the random draw. */
  function Produced(q: seq<int>, mark: int): (r: seq<int>)
    ensures |q| < Capacity ==> r == q + [mark]
    ensures |q| >= Capacity ==> r == q
    ensures IsMark(mark) && Stocked(q) ==> Stocked(r)
  {
    if |q| < Capacity then q + [mark] else q
  }

  /** Producing never disturbs the order of what is already stored. */
  lemma {:induction false} ProducedKeepsPrefix(q: seq<int>, marks: seq<int>)
    ensures |ProduceAll(q, marks)| <= if |q| < Capacity then Capacity else |q|
    ensures ProduceAll(q, marks)[..|q|] == q
    decreases |marks|
  {
    if marks != [] {
      var q' := Produced(q, marks[0]);
      ProducedKeepsPrefix(q', marks[1..]);
      assert q'[..|q|] == q;
    }
  }

  /** Several producer rounds in a row. */
  function ProduceAll(q: seq<int>, marks: seq<int>): (r: seq<int>)
    ensures |q| <= |r|
    decreases |marks|
  {
    if marks == [] then q else ProduceAll(Produced(q, marks[0]), marks[1..])
  }
}
