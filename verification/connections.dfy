/**
  The subscriber registry of the streaming layer: an ordered list of client
  sockets that is appended to on connect, loses the first occurrence of a
  socket on disconnect, and is walked by index when a payload is broadcast,
  dropping every socket whose send raises.

  The broadcast walk is the one of a Python `for` loop over a list that the
  loop body shrinks: the loop keeps a position, and after the socket at that
  position is removed the next socket slides into the position the loop has
  already passed, so it is not sent to in that pass.
 */
module Connections {
  import opened Sequences

  /** An accepted client socket, known only by its identity. */
  datatype Socket = Socket(id: nat)

  /** What a single `send_json` on a socket does: return normally, raise the
      framework's disconnect exception, or raise any other exception. */
  datatype SendOutcome = Delivered | ClientDisconnected | SendFailed

  /** Position of the first occurrence of `h` in `s`. */
  function FirstIndex(s: seq<Socket>, h: Socket): (i: nat)
    requires h in s
    ensures i < |s| && s[i] == h
    ensures forall j :: 0 <= j < i ==> s[j] != h
  {
    if s[0] == h then 0 else 1 + FirstIndex(s[1..], h)
  }

  /** The list after `disconnect(h)`: the first occurrence of `h` is removed
      when there is one, and the list is left alone otherwise. */
  function Removed(s: seq<Socket>, h: Socket): (r: seq<Socket>)
    ensures |r| == if h in s then |s| - 1 else |s|
    decreases |s|
  {
    if s == [] then []
    else if s[0] == h then s[1..]
    else [s[0]] + Removed(s[1..], h)
  }

  /** `list.remove` as the source performs it: find the first index, then
      close the gap. */
  lemma {:induction false} RemovedAtFirstIndex(s: seq<Socket>, h: Socket)
    requires h in s
    ensures Removed(s, h) == s[..FirstIndex(s, h)] + s[FirstIndex(s, h) + 1..]
    decreases |s|
  {
    if s[0] != h {
      RemovedAtFirstIndex(s[1..], h);
      var i := FirstIndex(s[1..], h);
      assert s[..i + 1] == [s[0]] + s[1..][..i];
      assert s[i + 2..] == s[1..][i + 1..];
    }
  }

  /** `disconnect` takes away one registration of `h` and nothing else, keeps
      the order of the others, and leaves everything in front of the first
      occurrence of `h` in place; without a registration it changes nothing. */
  lemma RemovedDeletesFirstOccurrence(s: seq<Socket>, h: Socket)
    ensures h !in s ==> Removed(s, h) == s
    ensures multiset(Removed(s, h)) == multiset(s) - multiset{h}
    ensures IsSubsequence(Removed(s, h), s)
    ensures h in s ==> Removed(s, h)[..FirstIndex(s, h)] == s[..FirstIndex(s, h)]
    ensures h in s ==> Removed(s, h)[FirstIndex(s, h)..] == s[FirstIndex(s, h) + 1..]
  {
    RemovedMultiset(s, h);
    RemovedSubsequence(s, h);
    if h in s {
      RemovedAtFirstIndex(s, h);
    } else {
      RemovedAbsent(s, h);
    }
  }

  lemma {:induction false} RemovedMultiset(s: seq<Socket>, h: Socket)
    ensures multiset(Removed(s, h)) == multiset(s) - multiset{h}
    decreases |s|
  {
    if s != [] {
      assert s == [s[0]] + s[1..];
      if s[0] != h {
        RemovedMultiset(s[1..], h);
      }
    }
  }

  lemma {:induction false} RemovedSubsequence(s: seq<Socket>, h: Socket)
    ensures IsSubsequence(Removed(s, h), s)
    decreases |s|
  {
    if s != [] {
      assert s == [s[0]] + s[1..];
      if s[0] == h {
        SubsequenceReflexive(s[1..]);
        SubsequenceSkip(s[0], s[1..], s[1..]);
      } else {
        RemovedSubsequence(s[1..], h);
        SubsequenceCons(s[0], Removed(s[1..], h), s[1..]);
      }
    } else {
      SubsequenceReflexive(s);
    }
  }

  lemma {:induction false} RemovedAbsent(s: seq<Socket>, h: Socket)
    requires h !in s
    ensures Removed(s, h) == s
    decreases |s|
  {
    if s != [] {
      RemovedAbsent(s[1..], h);
      assert s == [s[0]] + s[1..];
    }
  }

  /** Registration is not idempotent: a socket registered twice stays
      registered after one `disconnect`. */
  lemma {:induction false} DuplicateSurvivesOneDisconnect(s: seq<Socket>, ws: Socket)
    requires ws in s
    ensures |Removed(s + [ws], ws)| == |s|
    ensures multiset(Removed(s + [ws], ws))[ws] == multiset(s)[ws]
    ensures ws in Removed(s + [ws], ws)
  {
    RemovedDeletesFirstOccurrence(s + [ws], ws);
    assert multiset(s + [ws]) == multiset(s) + multiset{ws};
    assert ws in multiset(Removed(s + [ws], ws));
  }

  /** What one broadcast pass leaves behind: the registry afterwards and the
      sockets that were sent to, in the order of the sends. */
  datatype Pass = Pass(remaining: seq<Socket>, sentTo: seq<Socket>)

  /** The broadcast loop from position `i` of the current list `s`: send to
      `s[i]`; on any exception disconnect it; go on at position `i + 1` of
      the list as it now is. */
  function Sweep(s: seq<Socket>, i: nat, outcome: Socket -> SendOutcome): (p: Pass)
    // the walk starts with the socket at position `i`, sends to at most one
    // socket per remaining position, and never lets the registry grow
    ensures i < |s| ==> p.sentTo != [] && p.sentTo[0] == s[i]
    ensures p.sentTo == [] || i + |p.sentTo| <= |s|
    ensures |p.remaining| <= |s|
    decreases |s| - i
  {
    if i >= |s| then Pass(s, [])
    else
      var h := s[i];
      var next := if outcome(h) == Delivered then s else Removed(s, h);
      var rest := Sweep(next, i + 1, outcome);
      Pass(rest.remaining, [h] + rest.sentTo)
  }

  /** The sockets of `s` whose send raised, in order. */
  function Failed(s: seq<Socket>, outcome: Socket -> SendOutcome): (r: seq<Socket>)
    ensures |r| <= |s|
  {
    if s == [] then []
    else (if outcome(s[0]) != Delivered then [s[0]] else []) + Failed(s[1..], outcome)
  }

  /** `Failed` holds exactly the sockets of `s` whose send raised. */
  lemma {:induction false} FailedMembers(s: seq<Socket>, outcome: Socket -> SendOutcome, x: Socket)
    ensures x in Failed(s, outcome) <==> x in s && outcome(x) != Delivered
    decreases |s|
  {
    if s != [] {
      FailedMembers(s[1..], outcome, x);
      assert s == [s[0]] + s[1..];
    }
  }

  lemma FailedCons(h: Socket, s: seq<Socket>, outcome: Socket -> SendOutcome)
    ensures Failed([h] + s, outcome)
         == (if outcome(h) != Delivered then [h] else []) + Failed(s, outcome)
  {
    assert ([h] + s)[1..] == s;
  }

  /** The registrations a pass leaves plus one per failed send are the
      registrations it started from. */
  ghost predicate Conserved(s: seq<Socket>, i: nat, outcome: Socket -> SendOutcome)
  {
    var p := Sweep(s, i, outcome);
    multiset(p.remaining) + multiset(Failed(p.sentTo, outcome)) == multiset(s)
  }

  /** Every socket that was sent to and raised lost exactly one registration
      per failed send, and nothing else was removed. */
  lemma {:induction false} SweepConserves(s: seq<Socket>, i: nat, outcome: Socket -> SendOutcome)
    ensures Conserved(s, i, outcome)
    decreases |s| - i
  {
    if i < |s| {
      if outcome(s[i]) == Delivered {
        SweepConserves(s, i + 1, outcome);
        ConservedDelivered(s, i, outcome);
      } else {
        SweepConserves(Removed(s, s[i]), i + 1, outcome);
        ConservedFailed(s, i, outcome);
      }
    }
  }

  lemma ConservedDelivered(s: seq<Socket>, i: nat, outcome: Socket -> SendOutcome)
    requires i < |s| && outcome(s[i]) == Delivered
    requires Conserved(s, i + 1, outcome)
    ensures Conserved(s, i, outcome)
  {
    SweepDeliveredStep(s, i, outcome);
    FailedCons(s[i], Sweep(s, i + 1, outcome).sentTo, outcome);
  }

  lemma ConservedFailed(s: seq<Socket>, i: nat, outcome: Socket -> SendOutcome)
    requires i < |s| && outcome(s[i]) != Delivered
    requires Conserved(Removed(s, s[i]), i + 1, outcome)
    ensures Conserved(s, i, outcome)
  {
    var h := s[i];
    var next := Removed(s, h);
    SweepFailedStep(s, i, outcome);
    FailedCons(h, Sweep(next, i + 1, outcome).sentTo, outcome);
    RemovedDeletesFirstOccurrence(s, h);
    assert multiset(next) + multiset{h} == multiset(s);
  }

  /** A broadcast only removes sockets and keeps the others in order. */
  lemma {:induction false} SweepIsSubsequence(s: seq<Socket>, i: nat, outcome: Socket -> SendOutcome)
    ensures IsSubsequence(Sweep(s, i, outcome).remaining, s)
    decreases |s| - i
  {
    if i >= |s| {
      SubsequenceReflexive(s);
    } else {
      var h := s[i];
      var next := if outcome(h) == Delivered then s else Removed(s, h);
      SweepIsSubsequence(next, i + 1, outcome);
      if outcome(h) != Delivered {
        RemovedDeletesFirstOccurrence(s, h);
        SubsequenceTransitive(Sweep(next, i + 1, outcome).remaining, next, s);
      }
    }
  }

  /** A socket whose sends succeed keeps every one of its registrations. */
  lemma SweepKeepsDelivered(s: seq<Socket>, outcome: Socket -> SendOutcome, h: Socket)
    requires outcome(h) == Delivered
    ensures multiset(Sweep(s, 0, outcome).remaining)[h] == multiset(s)[h]
  {
    SweepConserves(s, 0, outcome);
    FailedMembers(Sweep(s, 0, outcome).sentTo, outcome, h);
  }

  /** The broadcast pass described on the original list, for a list without
      repeated sockets: a socket that is delivered to is kept and the walk
      goes on with the next one; a socket whose send raises is dropped and
      the socket right after it is skipped (kept, not sent to). */
  function Reference(s: seq<Socket>, outcome: Socket -> SendOutcome): (p: Pass)
    decreases |s|
  {
    if s == [] then Pass([], [])
    else if outcome(s[0]) == Delivered then
      var r := Reference(s[1..], outcome);
      Pass([s[0]] + r.remaining, [s[0]] + r.sentTo)
    else if |s| == 1 then Pass([], [s[0]])
    else
      var r := Reference(s[2..], outcome);
      Pass([s[1]] + r.remaining, [s[0]] + r.sentTo)
  }

  lemma {:induction false} ReferenceWithin(s: seq<Socket>, outcome: Socket -> SendOutcome)
    ensures IsSubsequence(Reference(s, outcome).remaining, s)
    ensures IsSubsequence(Reference(s, outcome).sentTo, s)
    decreases |s|
  {
    var r := Reference(s, outcome);
    if s == [] {
    } else if outcome(s[0]) == Delivered {
      ReferenceWithin(s[1..], outcome);
      assert s == [s[0]] + s[1..];
      SubsequenceCons(s[0], Reference(s[1..], outcome).remaining, s[1..]);
      SubsequenceCons(s[0], Reference(s[1..], outcome).sentTo, s[1..]);
    } else if |s| == 1 {
      assert r.sentTo == s;
      SubsequenceReflexive(s);
    } else {
      var t := Reference(s[2..], outcome);
      ReferenceWithin(s[2..], outcome);
      assert s == [s[0]] + ([s[1]] + s[2..]);
      SubsequenceCons(s[1], t.remaining, s[2..]);
      SubsequenceSkip(s[0], [s[1]] + t.remaining, [s[1]] + s[2..]);
      SubsequenceSkip(s[1], t.sentTo, s[2..]);
      SubsequenceCons(s[0], t.sentTo, [s[1]] + s[2..]);
    }
  }

  lemma SweepDeliveredStep(s: seq<Socket>, i: nat, outcome: Socket -> SendOutcome)
    requires i < |s| && outcome(s[i]) == Delivered
    ensures Sweep(s, i, outcome)
         == Pass(Sweep(s, i + 1, outcome).remaining, [s[i]] + Sweep(s, i + 1, outcome).sentTo)
  {
  }

  lemma SweepFailedStep(s: seq<Socket>, i: nat, outcome: Socket -> SendOutcome)
    requires i < |s| && outcome(s[i]) != Delivered
    ensures Sweep(s, i, outcome)
         == Pass(Sweep(Removed(s, s[i]), i + 1, outcome).remaining,
                 [s[i]] + Sweep(Removed(s, s[i]), i + 1, outcome).sentTo)
  {
  }

  lemma RemovedAt(s: seq<Socket>, i: nat)
    requires Distinct(s) && i < |s|
    ensures Removed(s, s[i]) == s[..i] + s[i+1..]
  {
    var j := FirstIndex(s, s[i]);
    assert j == i;
    RemovedAtFirstIndex(s, s[i]);
  }

  /** The state of the loop at position `i` of a list without repeats: the
      part in front of `i` is what the pass has left of the processed
      prefix, and the rest is untouched. */
  ghost predicate SweepMatches(s: seq<Socket>, i: nat, outcome: Socket -> SendOutcome)
    requires i <= |s|
  {
    Sweep(s, i, outcome)
      == Pass(s[..i] + Reference(s[i..], outcome).remaining, Reference(s[i..], outcome).sentTo)
  }

  lemma {:induction false} SweepAt(s: seq<Socket>, i: nat, outcome: Socket -> SendOutcome)
    requires i <= |s| && Distinct(s)
    ensures SweepMatches(s, i, outcome)
    decreases |s| - i
  {
    if i == |s| {
      assert s[..i] == s;
    } else if outcome(s[i]) == Delivered {
      SweepAt(s, i + 1, outcome);
      SweepAtDelivered(s, i, outcome);
    } else {
      var next := s[..i] + s[i+1..];
      RemovedAt(s, i);
      SweepFailedStep(s, i, outcome);
      if i + 1 == |s| {
        assert next == s[..i];
        SweepAtLastFailed(s, i, outcome, next);
      } else {
        DistinctDelete(s, i);
        SweepAt(next, i + 1, outcome);
        SweepAtFailed(s, i, outcome, next);
      }
    }
  }

  lemma DistinctDelete(s: seq<Socket>, i: nat)
    requires Distinct(s) && i < |s|
    ensures Distinct(s[..i] + s[i+1..])
  {
    var next := s[..i] + s[i+1..];
    forall a, b | 0 <= a < b < |next| ensures next[a] != next[b] {
      assert next[a] == s[if a < i then a else a + 1];
      assert next[b] == s[if b < i then b else b + 1];
    }
  }

  lemma SweepAtDelivered(s: seq<Socket>, i: nat, outcome: Socket -> SendOutcome)
    requires i < |s| && outcome(s[i]) == Delivered
    requires SweepMatches(s, i + 1, outcome)
    ensures SweepMatches(s, i, outcome)
  {
    SweepDeliveredStep(s, i, outcome);
    var r := Reference(s[i+1..], outcome);
    assert s[i..][1..] == s[i+1..];
    assert Reference(s[i..], outcome) == Pass([s[i]] + r.remaining, [s[i]] + r.sentTo);
    assert s[..i+1] + r.remaining == s[..i] + ([s[i]] + r.remaining);
  }

  /** The positional description after a failed first send: the second
      socket is kept without a send, and the walk goes on after it. */
  lemma ReferenceFailedStep(t: seq<Socket>, outcome: Socket -> SendOutcome)
    requires 1 < |t| && outcome(t[0]) != Delivered
    ensures Reference(t, outcome)
         == Pass([t[1]] + Reference(t[2..], outcome).remaining, [t[0]] + Reference(t[2..], outcome).sentTo)
  {
  }

  lemma SweepAtLastFailed(s: seq<Socket>, i: nat, outcome: Socket -> SendOutcome, next: seq<Socket>)
    requires i + 1 == |s| && outcome(s[i]) != Delivered
    requires next == s[..i]
    requires Sweep(s, i, outcome) == Pass(Sweep(next, i + 1, outcome).remaining,
                                          [s[i]] + Sweep(next, i + 1, outcome).sentTo)
    ensures SweepMatches(s, i, outcome)
  {
    assert Sweep(next, i + 1, outcome) == Pass(next, []);
    assert Reference(s[i..], outcome) == Pass([], [s[i]]);
    assert s[..i] + [] == s[..i];
  }

  lemma SweepAtFailed(s: seq<Socket>, i: nat, outcome: Socket -> SendOutcome, next: seq<Socket>)
    requires i + 1 < |s| && outcome(s[i]) != Delivered
    requires next == s[..i] + s[i+1..]
    requires Sweep(s, i, outcome) == Pass(Sweep(next, i + 1, outcome).remaining,
                                          [s[i]] + Sweep(next, i + 1, outcome).sentTo)
    requires SweepMatches(next, i + 1, outcome)
    ensures SweepMatches(s, i, outcome)
  {
    DeleteSlices(s, i, next);
    ReferenceFailedAt(s, i, outcome);
    var r := Reference(s[i+2..], outcome);
    assert Sweep(next, i + 1, outcome) == Pass((s[..i] + [s[i+1]]) + r.remaining, r.sentTo);
    Reassociate(Sweep(next, i + 1, outcome), Sweep(s, i, outcome), Reference(s[i..], outcome),
                s[..i], s[i], s[i+1], r.remaining, r.sentTo);
  }

  /** The bookkeeping of `SweepAtFailed`, over plain values. */
  lemma Reassociate(inner: Pass, whole: Pass, ref: Pass, pre: seq<Socket>, x: Socket, y: Socket,
                    rem: seq<Socket>, sent: seq<Socket>)
    requires inner == Pass((pre + [y]) + rem, sent)
    requires whole == Pass(inner.remaining, [x] + inner.sentTo)
    requires ref == Pass([y] + rem, [x] + sent)
    ensures whole == Pass(pre + ref.remaining, ref.sentTo)
  {
    assert (pre + [y]) + rem == pre + ([y] + rem);
  }

  lemma DeleteSlices(s: seq<Socket>, i: nat, next: seq<Socket>)
    requires i + 1 < |s| && next == s[..i] + s[i+1..]
    ensures next[..i+1] == s[..i] + [s[i+1]] && next[i+1..] == s[i+2..]
  {
  }

  lemma ReferenceFailedAt(s: seq<Socket>, i: nat, outcome: Socket -> SendOutcome)
    requires i + 1 < |s| && outcome(s[i]) != Delivered
    ensures Reference(s[i..], outcome)
         == Pass([s[i+1]] + Reference(s[i+2..], outcome).remaining, [s[i]] + Reference(s[i+2..], outcome).sentTo)
  {
    assert s[i..][2..] == s[i+2..];
    ReferenceFailedStep(s[i..], outcome);
  }

  /** The broadcast pass over a registry without repeated sockets. */
  lemma SweepIsReference(s: seq<Socket>, outcome: Socket -> SendOutcome)
    requires Distinct(s)
    ensures Sweep(s, 0, outcome) == Reference(s, outcome)
  {
    SweepAt(s, 0, outcome);
    assert s[..0] + Reference(s[0..], outcome).remaining == Reference(s, outcome).remaining;
  }

  /** What the class method states about a whole pass. */
  lemma BroadcastFacts(s: seq<Socket>, outcome: Socket -> SendOutcome)
    ensures IsSubsequence(Sweep(s, 0, outcome).remaining, s)
    ensures Distinct(s) ==> Sweep(s, 0, outcome) == Reference(s, outcome)
  {
    SweepIsSubsequence(s, 0, outcome);
    if Distinct(s) {
      SweepIsReference(s, outcome);
    }
  }

  /** For distinct sockets: a socket is still registered after the pass
      exactly when it was not both sent to and failed. */
  lemma {:induction false} ReferenceDropsExactlyFailedSends(s: seq<Socket>, outcome: Socket -> SendOutcome, x: Socket)
    requires Distinct(s) && x in s
    ensures x in Reference(s, outcome).remaining
        <==> !(x in Reference(s, outcome).sentTo && outcome(x) != Delivered)
    decreases |s|
  {
    var r := Reference(s, outcome);
    if outcome(s[0]) == Delivered {
      if x != s[0] {
        assert x in s[1..];
        ReferenceDropsExactlyFailedSends(s[1..], outcome, x);
      }
    } else if |s| == 1 {
    } else {
      var t := Reference(s[2..], outcome);
      ReferenceWithin(s[2..], outcome);
      SubsequenceBounds(t.remaining, s[2..]);
      SubsequenceBounds(t.sentTo, s[2..]);
      assert s[0] !in s[2..] && s[1] !in s[2..] by {
        forall j | 0 <= j < |s[2..]| ensures s[2..][j] != s[0] && s[2..][j] != s[1] {
          assert s[2..][j] == s[j + 2];
        }
      }
      assert s[0] != s[1];
      if x != s[0] && x != s[1] {
        assert x in s[2..];
        ReferenceDropsExactlyFailedSends(s[2..], outcome, x);
      }
    }
  }

  /** For distinct sockets: when the socket at position i is sent to and
      raises, the socket at position i + 1 is not sent to in that pass and
      stays registered. */
  lemma {:induction false} ReferenceSkipsNext(s: seq<Socket>, outcome: Socket -> SendOutcome, i: nat)
    requires Distinct(s) && i + 1 < |s|
    requires s[i] in Reference(s, outcome).sentTo && outcome(s[i]) != Delivered
    ensures s[i + 1] !in Reference(s, outcome).sentTo
    ensures s[i + 1] in Reference(s, outcome).remaining
    decreases |s|
  {
    if outcome(s[0]) == Delivered {
      var t := Reference(s[1..], outcome);
      assert i != 0;
      assert s[i] in t.sentTo;
      assert s[1..][i - 1] == s[i] && s[1..][i] == s[i + 1];
      ReferenceSkipsNext(s[1..], outcome, i - 1);
      assert s[i + 1] != s[0];
    } else {
      var t := Reference(s[2..], outcome);
      ReferenceWithin(s[2..], outcome);
      SubsequenceBounds(t.sentTo, s[2..]);
      SubsequenceBounds(t.remaining, s[2..]);
      assert s[1] !in s[2..] by {
        forall j | 0 <= j < |s[2..]| ensures s[2..][j] != s[1] {
          assert s[2..][j] == s[j + 2];
        }
      }
      if i == 0 {
        assert s[1] != s[0];
      } else if i == 1 {
        assert false;
      } else {
        assert s[i] != s[0];
        assert s[2..][i - 2] == s[i] && s[2..][i - 1] == s[i + 1];
        ReferenceSkipsNext(s[2..], outcome, i - 2);
        assert s[i + 1] != s[0] && s[i + 1] != s[1];
      }
    }
  }

  /** The state of the broadcast loop: after sending to `sentTo`, the walk
      from position `i` of the current list `cur` finishes what the walk over
      `start` does. */
  ghost predicate SweptSoFar(start: seq<Socket>, cur: seq<Socket>, i: nat, sentTo: seq<Socket>,
                             outcome: Socket -> SendOutcome)
  {
    && Sweep(start, 0, outcome).remaining == Sweep(cur, i, outcome).remaining
    && Sweep(start, 0, outcome).sentTo == sentTo + Sweep(cur, i, outcome).sentTo
  }

  lemma SweptSoFarStart(start: seq<Socket>, outcome: Socket -> SendOutcome)
    ensures SweptSoFar(start, start, 0, [], outcome)
  {
    assert [] + Sweep(start, 0, outcome).sentTo == Sweep(start, 0, outcome).sentTo;
  }

  /** One turn of the broadcast loop keeps its state. */
  lemma SweptSoFarStep(start: seq<Socket>, cur: seq<Socket>, i: nat, sentTo: seq<Socket>,
                       outcome: Socket -> SendOutcome)
    requires i < |cur| && SweptSoFar(start, cur, i, sentTo, outcome)
    ensures SweptSoFar(start, if outcome(cur[i]) == Delivered then cur else Removed(cur, cur[i]),
                       i + 1, sentTo + [cur[i]], outcome)
  {
    var next := if outcome(cur[i]) == Delivered then cur else Removed(cur, cur[i]);
    if outcome(cur[i]) == Delivered {
      SweepDeliveredStep(cur, i, outcome);
    } else {
      SweepFailedStep(cur, i, outcome);
    }
    SweptSoFarShift(Sweep(start, 0, outcome), Sweep(cur, i, outcome), Sweep(next, i + 1, outcome), sentTo, cur[i]);
  }

  /** The bookkeeping of one turn, over plain values. */
  lemma SweptSoFarShift(whole: Pass, here: Pass, after: Pass, sentTo: seq<Socket>, x: Socket)
    requires here == Pass(after.remaining, [x] + after.sentTo)
    requires whole.remaining == here.remaining && whole.sentTo == sentTo + here.sentTo
    ensures whole.remaining == after.remaining && whole.sentTo == (sentTo + [x]) + after.sentTo
  {
    assert sentTo + ([x] + after.sentTo) == (sentTo + [x]) + after.sentTo;
  }

  /** When the loop's index has run past the list, the walk is complete. */
  lemma SweptSoFarEnd(start: seq<Socket>, cur: seq<Socket>, i: nat, sentTo: seq<Socket>,
                      outcome: Socket -> SendOutcome)
    requires i >= |cur| && SweptSoFar(start, cur, i, sentTo, outcome)
    ensures Sweep(start, 0, outcome) == Pass(cur, sentTo)
  {
    assert sentTo + [] == sentTo;
  }

  /** The registry, an ordered list of accepted sockets changed in place. */
  class ConnectionManager {
    var activeConnections: seq<Socket>

    constructor ()
      ensures activeConnections == []
    {
      activeConnections := [];
    }

    /** Registers an accepted socket at the end of the list; a socket already
        registered is registered again. */
    method Connect(ws: Socket)
      modifies this
      ensures activeConnections == old(activeConnections) + [ws]
    {
      activeConnections := activeConnections + [ws];
    }

    /** Removes the first registration of `ws`, if any. */
    method Disconnect(ws: Socket)
      modifies this
      ensures activeConnections == Removed(old(activeConnections), ws)
      ensures ws !in old(activeConnections) ==> activeConnections == old(activeConnections)
    {
      if ws in activeConnections {
        var i := FirstIndex(activeConnections, ws);
        RemovedAtFirstIndex(activeConnections, ws);
        activeConnections := activeConnections[..i] + activeConnections[i+1..];
      } else {
        RemovedAbsent(activeConnections, ws);
      }
    }

    /** Sends one payload to every socket the walk reaches; a socket whose
        send raises is disconnected and the exception goes no further.
        Returns the sockets sent to, in order. */
    method SendData(outcome: Socket -> SendOutcome) returns (sentTo: seq<Socket>)
      modifies this
      ensures Pass(activeConnections, sentTo) == Sweep(old(activeConnections), 0, outcome)
      ensures IsSubsequence(activeConnections, old(activeConnections))
      ensures Distinct(old(activeConnections))
           ==> Pass(activeConnections, sentTo) == Reference(old(activeConnections), outcome)
    {
      ghost var start := activeConnections;
      var i: nat := 0;
      sentTo := [];
      SweptSoFarStart(start, outcome);
      while i < |activeConnections|
        invariant SweptSoFar(start, activeConnections, i, sentTo, outcome)
        decreases |activeConnections| - i
      {
        var connection := activeConnections[i];
        SweptSoFarStep(start, activeConnections, i, sentTo, outcome);
        match outcome(connection) {
          case Delivered =>
          case ClientDisconnected =>
            Disconnect(connection);
          case SendFailed =>
            Disconnect(connection);
        }
        sentTo := sentTo + [connection];
        i := i + 1;
      }
      SweptSoFarEnd(start, activeConnections, i, sentTo, outcome);
      BroadcastFacts(start, outcome);
    }
  }
}
