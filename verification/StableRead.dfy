/** Reading the configuration until two good reads in a row agree, because the link can garble one. */
module StableRead {
  import opened Wrappers
  import opened Bytes

  const CMD_CFG: Byte := 0x55
  const READ_TRIES := 6

  /** One request and its answer: an await failed, or these bytes came back. */
  datatype Read = ReadRaises | Got(raw: Blob)

  /** The opcode, the firmware byte and eleven bytes of configuration at least. */
  predicate Good(r: Read) {
    r.Got? && |r.raw| >= 13 && r.raw[0] == CMD_CFG
  }

  function Core(r: Read): Blob
    requires Good(r)
  {
    r.raw[1..13]
  }

  /** Read `k` is reached and repeats read `j`, the last good one before it. */
  ghost predicate Confirms(answers: seq<Read>, j: nat, k: nat) {
    && j < k < |answers| && Good(answers[j]) && Good(answers[k]) && Core(answers[j]) == Core(answers[k])
    && (forall i | 0 <= i < k :: answers[i].Got?)
    && forall i | j < i < k :: !Good(answers[i])
  }

  /**
   A configuration is believed exactly when a good read repeats the last good one before it, and it is the
   first to do so; answers that are no configuration at all count for nothing in between.
   */
  method ReadRaw(answers: seq<Read>) returns (raw: Option<Blob>)
    requires |answers| == READ_TRIES
    ensures raw == None <==> forall j: nat, k: nat :: !Confirms(answers, j, k)
    ensures raw.Some? ==> exists j: nat, k: nat ::
              Confirms(answers, j, k) && answers[k].raw == raw.value
                && forall i: nat, l: nat | Confirms(answers, i, l) :: k <= l
  {
    var prev: Option<Blob> := None;
    ghost var at: nat := 0;
    for n := 0 to READ_TRIES
      invariant forall i | 0 <= i < n :: answers[i].Got?
      invariant prev == None ==> forall i | 0 <= i < n :: !Good(answers[i])
      invariant prev.Some? ==>
                  && at < n && Good(answers[at]) && Core(answers[at]) == prev.value
                  && forall i | at < i < n :: !Good(answers[i])
      invariant forall j: nat, k: nat | k < n :: !Confirms(answers, j, k)
    {
      if answers[n].ReadRaises? {
        return None;
      }
      if Good(answers[n]) {
        var cur := Core(answers[n]);
        if prev == Some(cur) {
          assert Confirms(answers, at, n);
          return Some(answers[n].raw);
        }
        prev, at := Some(cur), n;
      }
    }
    return None;
  }

  /** Two equal answers with garbage between them are believed, although they are not consecutive. */
  lemma GarbageInBetweenIsSkipped(good: Read, bad: Read, rest: seq<Read>)
    requires Good(good) && bad.Got? && !Good(bad)
    ensures Confirms([good, bad, good] + rest, 0, 2)
    ensures forall j: nat, k: nat | Confirms([good, bad, good] + rest, j, k) :: k >= 2
  {
    var answers := [good, bad, good] + rest;
    assert answers[0] == good && answers[1] == bad && answers[2] == good;
  }
}
