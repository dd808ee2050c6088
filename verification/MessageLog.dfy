/** Sub-sequences of the chat log. */
module MessageLog {
  import opened Chat

  /** A choice of messages by who sent them. */
  datatype Choice = By(sid: nat) | NotBy(sid: nat) {
    predicate Takes(m: Message) {
      match this
      case By(i) => m.sid == i
      case NotBy(i) => m.sid != i
    }
  }

  function Keep(log: seq<Message>, which: Choice): seq<Message> {
    if log == [] then []
    else Keep(log[..|log| - 1], which) + (if which.Takes(log[|log| - 1]) then [log[|log| - 1]] else [])
  }

  /** A stretch that reaches the end of the log grows with it; any other stays as it is. */
  lemma SliceGrows(log: seq<Message>, m: Message, from: nat)
    requires from <= |log|
    ensures (log + [m])[from..|log| + 1] == log[from..|log|] + [m]
  {
    var longer, same := (log + [m])[from..|log| + 1], log[from..|log|] + [m];
    assert |longer| == |same|;
    assert forall k :: 0 <= k < |longer| ==> longer[k] == same[k];
  }

  lemma SliceStays(log: seq<Message>, m: Message, from: nat, until: nat)
    requires from <= until <= |log|
    ensures (log + [m])[from..until] == log[from..until] && (log + [m])[..from] == log[..from]
  {
  }

  lemma KeepLast(log: seq<Message>, m: Message, which: Choice)
    ensures Keep(log + [m], which) == Keep(log, which) + (if which.Takes(m) then [m] else [])
  {
    assert (log + [m])[..|log|] == log;
  }

  lemma {:induction false} KeepAppend(first: seq<Message>, second: seq<Message>, which: Choice)
    ensures Keep(first + second, which) == Keep(first, which) + Keep(second, which)
    decreases |second|
  {
    if second == [] {
      assert first + second == first;
    } else {
      var m, rest := second[|second| - 1], second[..|second| - 1];
      assert second == rest + [m] && first + second == (first + rest) + [m];
      KeepAppend(first, rest, which);
      KeepLast(first + rest, m, which);
      KeepLast(rest, m, which);
    }
  }

  lemma {:induction false} KeepNothing(log: seq<Message>, which: Choice)
    requires forall k :: 0 <= k < |log| ==> !which.Takes(log[k])
    ensures Keep(log, which) == []
  {
    if log == [] {
    } else {
      KeepNothing(log[..|log| - 1], which);
    }
  }

  /** The order in which two choices are made does not matter. */
  lemma {:induction false} KeepCommutes(log: seq<Message>, f: Choice, g: Choice)
    ensures Keep(Keep(log, f), g) == Keep(Keep(log, g), f)
  {
    if log == [] {
    } else {
      var m, rest := log[|log| - 1], log[..|log| - 1];
      KeepCommutes(rest, f, g);
      KeepLast(Keep(rest, f), m, g);
      KeepLast(Keep(rest, g), m, f);
      assert Keep(rest, f) + [] == Keep(rest, f) && Keep(rest, g) + [] == Keep(rest, g);
      assert Keep(Keep(rest, f), g) + [] == Keep(Keep(rest, f), g);
    }
  }

  /** Leaving out one session does not touch the messages of another. */
  lemma {:induction false} KeepOthersKeeps(log: seq<Message>, i: nat, j: nat)
    requires i != j
    ensures Keep(Keep(log, NotBy(j)), By(i)) == Keep(log, By(i))
  {
    if log == [] {
    } else {
      var m, rest := log[|log| - 1], log[..|log| - 1];
      KeepOthersKeeps(rest, i, j);
      KeepLast(Keep(rest, NotBy(j)), m, By(i));
      assert Keep(rest, NotBy(j)) + [] == Keep(rest, NotBy(j)) && Keep(rest, By(i)) + [] == Keep(rest, By(i));
    }
  }
}
