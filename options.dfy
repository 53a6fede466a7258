/** The optional value used across the model (JavaScript null / Python None), and a fact about sequences. */
module Options {
  datatype Option<T> = None | Some(value: T)

  /** Appending is associative; stated once so that long traces can be regrouped cheaply. */
  lemma AppendAssociative<T>(a: seq<T>, b: seq<T>, c: seq<T>)
    ensures a + b + c == a + (b + c)
  {
  }

  /** Appending singletons one by one appends their display (stated once so that traces of two to four passes regroup cheaply). */
  lemma AppendTwo<T>(t: seq<T>, a: T, b: T)
    ensures t + [a] + [b] == t + [a, b]
  {
  }

  lemma AppendThree<T>(t: seq<T>, a: T, b: T, c: T)
    ensures t + [a] + [b] + [c] == t + [a, b, c]
  {
  }

  lemma AppendFour<T>(t: seq<T>, a: T, b: T, c: T, d: T)
    ensures t + [a] + [b] + [c] + [d] == t + [a, b, c, d]
  {
  }
}
