// The broadcast tally of process_mailing (botcaffe.py:317-333): every
// recipient gets one delivery attempt, in the order the ledger lists them; a
// failed attempt is logged and skipped, and the operator is told how many of
// the attempts went through. Whether one attempt succeeds is decided outside
// the bot (the messaging service), so it is a parameter here.

module Broadcast {
  import Ledger

  type UserId = Ledger.UserId

  /** How many recipients a broadcast reaches when `send` says which attempts succeed. */
  function Delivered(rs: seq<UserId>, send: UserId -> bool): (n: nat)
    ensures n <= |rs|
    ensures n == |rs| <==> forall i :: 0 <= i < |rs| ==> send(rs[i])
    decreases |rs|
  {
    if rs == [] then 0
    else Delivered(rs[..|rs| - 1], send) + (if send(rs[|rs| - 1]) then 1 else 0)
  }

  /** The recipients whose attempt fails, in the order they were tried. */
  function Failed(rs: seq<UserId>, send: UserId -> bool): (f: seq<UserId>)
    ensures Delivered(rs, send) + |f| == |rs|
    decreases |rs|
  {
    if rs == [] then []
    else Failed(rs[..|rs| - 1], send) + (if send(rs[|rs| - 1]) then [] else [rs[|rs| - 1]])
  }

  /** The failure log names exactly the recipients whose attempt failed. */
  lemma {:induction false} FailedAreUnreached(rs: seq<UserId>, send: UserId -> bool)
    ensures forall u :: u in Failed(rs, send) <==> u in rs && !send(u)
    decreases |rs|
  {
    if rs != [] {
      var init := rs[..|rs| - 1];
      FailedAreUnreached(init, send);
      assert rs == init + [rs[|rs| - 1]];
    }
  }

  /**
   * The loop of process_mailing: one attempt per recipient, a failure does
   * not stop the loop, and the tally counts the attempts that went through.
   */
  method Dispatch(recipients: seq<UserId>, send: UserId -> bool) returns (success: nat, failures: seq<UserId>)
    ensures success == Delivered(recipients, send)
    ensures failures == Failed(recipients, send)
    ensures success + |failures| == |recipients|
  {
    success := 0;
    failures := [];
    var i := 0;
    while i < |recipients|
      invariant 0 <= i <= |recipients|
      invariant success == Delivered(recipients[..i], send)
      invariant failures == Failed(recipients[..i], send)
    {
      var u := recipients[i];
      if send(u) {
        success := success + 1;
      } else {
        failures := failures + [u];
      }
      assert recipients[..i + 1][..i] == recipients[..i];
      i := i + 1;
    }
    assert recipients[..i] == recipients;
  }

  /**
   * The tally over a list is the tally over any split of it: a failure in
   * the first part does not keep the second part from being reached.
   */
  lemma {:induction false} DeliveredSplit(a: seq<UserId>, b: seq<UserId>, send: UserId -> bool)
    ensures Delivered(a + b, send) == Delivered(a, send) + Delivered(b, send)
    decreases |b|
  {
    if b == [] {
      assert a + b == a;
    } else {
      var b' := b[..|b| - 1];
      assert (a + b)[..|a + b| - 1] == a + b';
      assert (a + b)[|a + b| - 1] == b[|b| - 1];
      DeliveredSplit(a, b', send);
    }
  }

  /** Three recipients, the second of whom cannot be reached: two are reported. */
  lemma ExampleOneFailure()
    ensures Delivered([1, 2, 3], u => u != 2) == 2
    ensures Failed([1, 2, 3], u => u != 2) == [2]
  {
    var send: UserId -> bool := u => u != 2;
    assert [1, 2, 3][..2] == [1, 2];
    assert [1, 2][..1] == [1];
    assert [1][..0] == [];
    assert Delivered([1], send) == 1;
    assert Delivered([1, 2], send) == 1;
    assert Failed([1], send) == [];
    assert Failed([1, 2], send) == [2];
  }
}
