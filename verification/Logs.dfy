/** What a call put on the air, attempt by attempt, and all of it in one sequence. */
module Logs {
  function Flat<T>(log: seq<seq<T>>): seq<T> {
    if log == [] then [] else log[0] + Flat(log[1..])
  }

  lemma FlatFirst<T>(first: seq<T>, rest: seq<seq<T>>)
    ensures Flat([first] + rest) == first + Flat(rest)
  {
    assert ([first] + rest)[1..] == rest;
  }

  lemma {:induction false} FlatSnoc<T>(log: seq<seq<T>>, last: seq<T>)
    ensures Flat(log + [last]) == Flat(log) + last
  {
    if log != [] {
      assert (log + [last])[1..] == log[1..] + [last];
      FlatSnoc(log[1..], last);
    } else {
      assert log + [last] == [last];
    }
  }
}
