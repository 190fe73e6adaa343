/** What loops that build their result piece by piece need to know about sequences. */
module Sequences {

  lemma MoveOver<T>(done: seq<T>, next: T, later: seq<T>)
    ensures done + ([next] + later) == done + [next] + later
  {}

  /** A whole result, as the part done so far and the result for what is left. */
  ghost predicate Continues<S, T>(all: (S, seq<T>), done: seq<T>, later: (S, seq<T>)) {
    all.0 == later.0 && all.1 == done + later.1
  }

  lemma ContinuesOn<S, T>(all: (S, seq<T>), done: seq<T>, next: T, later: (S, seq<T>))
    requires Continues(all, done, (later.0, [next] + later.1))
    ensures Continues(all, done + [next], later)
  {}
}
