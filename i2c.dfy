/**
 * The I2C transport as the driver sees it: blocking writes of whole byte
 * frames to a 7-bit device address. The transport's answer to each write
 * is not under the driver's control, so a bus is given the sequence of
 * answers it will produce and records every write it is asked to make.
 */
module I2c {
  /** One blocking write: the device address and the bytes sent, stop condition included. */
  datatype Transfer = Transfer(address: bv8, bytes: seq<bv8>)

  /** The transport reports bytes written as a non-negative result and errors as negative codes. */
  predicate Succeeded(result: int)
  {
    result >= 0
  }

  /** The bus: the writes made so far, and the answer the transport gives to the n-th write. */
  class Bus {
    var log: seq<Transfer>
    const reply: nat -> int

    constructor (reply: nat -> int)
      ensures log == [] && this.reply == reply
    {
      this.reply := reply;
      log := [];
    }

    /** Sends `bytes` to `address` and returns the transport's answer for this write. */
    method WriteBlocking(address: bv8, bytes: seq<bv8>) returns (result: int)
      modifies this
      ensures log == old(log) + [Transfer(address, bytes)]
      ensures result == reply(|old(log)|)
    {
      result := reply(|log|);
      log := log + [Transfer(address, bytes)];
    }
  }

  /** The answer to the `k`-th write of a chain started after `sent` earlier writes. */
  function Answer(reply: nat -> int, sent: nat, k: nat): int
  {
    reply(sent + k)
  }

  /**
   * A chain of writes joined by a short-circuit "and": each frame is sent
   * only while every earlier write succeeded. `sent` is the number of writes
   * the bus had made before the chain started. The result says whether the
   * whole chain succeeded and which writes it made.
   */
  function Chain(address: bv8, frames: seq<seq<bv8>>, reply: nat -> int, sent: nat): (r: (bool, seq<Transfer>))
    ensures |r.1| <= |frames| && (r.0 ==> |r.1| == |frames|)
    ensures forall k :: 0 <= k < |r.1| ==> r.1[k] == Transfer(address, frames[k])
    decreases |frames|
  {
    if frames == [] then (true, [])
    else if !Succeeded(reply(sent)) then (false, [Transfer(address, frames[0])])
    else
      var rest := Chain(address, frames[1..], reply, sent + 1);
      (rest.0, [Transfer(address, frames[0])] + rest.1)
  }

  /** The chain succeeds exactly when every one of its writes is answered with success. */
  lemma {:induction false} ChainSucceeds(address: bv8, frames: seq<seq<bv8>>, reply: nat -> int, sent: nat)
    ensures Chain(address, frames, reply, sent).0 <==>
      forall k :: 0 <= k < |frames| ==> Succeeded(Answer(reply, sent, k))
    decreases |frames|
  {
    if frames != [] {
      assert Answer(reply, sent, 0) == reply(sent);
      if Succeeded(reply(sent)) {
        ChainSucceeds(address, frames[1..], reply, sent + 1);
        if Chain(address, frames, reply, sent).0 {
          forall k | 0 <= k < |frames|
            ensures Succeeded(Answer(reply, sent, k))
          {
            if k > 0 {
              assert Answer(reply, sent, k) == Answer(reply, sent + 1, k - 1);
            }
          }
        } else {
          var j :| 0 <= j < |frames| - 1 && !Succeeded(Answer(reply, sent + 1, j));
          assert Answer(reply, sent + 1, j) == Answer(reply, sent, j + 1);
        }
      }
    }
  }

  /**
   * The chain stops at its first failed write: it makes every write up to
   * and including the first one answered with an error, and no later one
   * (which writes those are, `Chain` itself states).
   */
  lemma {:induction false} ChainStopsAtFirstFailure(address: bv8, frames: seq<seq<bv8>>, reply: nat -> int, sent: nat, i: nat)
    requires i < |frames| && !Succeeded(Answer(reply, sent, i))
    requires forall k :: 0 <= k < i ==> Succeeded(Answer(reply, sent, k))
    ensures !Chain(address, frames, reply, sent).0 && |Chain(address, frames, reply, sent).1| == i + 1
    decreases i
  {
    if i > 0 {
      var next := sent + 1;
      forall k | 0 <= k < i - 1
        ensures Succeeded(Answer(reply, next, k))
      {
        assert Answer(reply, next, k) == Answer(reply, sent, k + 1);
      }
      assert Answer(reply, next, i - 1) == Answer(reply, sent, i);
      assert Succeeded(Answer(reply, sent, 0));
      ChainStopsAtFirstFailure(address, frames[1..], reply, next, i - 1);
    } else {
      assert !Succeeded(reply(sent + 0));
    }
  }

  /** When every write succeeds the chain makes all of them, in order. */
  lemma {:induction false} ChainAllSent(address: bv8, frames: seq<seq<bv8>>, reply: nat -> int, sent: nat)
    requires forall k :: 0 <= k < |frames| ==> Succeeded(Answer(reply, sent, k))
    ensures Chain(address, frames, reply, sent).0 && |Chain(address, frames, reply, sent).1| == |frames|
    decreases |frames|
  {
    if frames != [] {
      assert Succeeded(Answer(reply, sent, 0));
      var next := sent + 1;
      forall k | 0 <= k < |frames| - 1
        ensures Succeeded(Answer(reply, next, k))
      {
        assert Answer(reply, next, k) == Answer(reply, sent, k + 1);
      }
      ChainAllSent(address, frames[1..], reply, next);
    }
  }

  /** A single frame is one write, and its answer is the outcome. */
  lemma ChainOne(address: bv8, last: seq<bv8>, reply: nat -> int, sent: nat)
    ensures Chain(address, [last], reply, sent).0 == Succeeded(reply(sent))
    ensures Chain(address, [last], reply, sent).1 == [Transfer(address, last)]
  {
    assert [last][1..] == [];
    assert Chain(address, [], reply, sent + 1) == (true, []);
  }

  /**
   * One more frame at the end of a chain is sent only if the whole chain
   * before it succeeded, and then decides the outcome alone.
   */
  lemma {:induction false} ChainSnoc(address: bv8, frames: seq<seq<bv8>>, last: seq<bv8>, reply: nat -> int, sent: nat)
    ensures var r := Chain(address, frames, reply, sent);
      Chain(address, frames + [last], reply, sent).0 == (r.0 && Succeeded(Answer(reply, sent, |frames|)))
    ensures var r := Chain(address, frames, reply, sent);
      Chain(address, frames + [last], reply, sent).1 == if r.0 then r.1 + [Transfer(address, last)] else r.1
    decreases |frames|
  {
    if frames == [] {
      assert frames + [last] == [last];
      assert Answer(reply, sent, 0) == reply(sent);
      ChainOne(address, last, reply, sent);
    } else {
      assert (frames + [last])[1..] == frames[1..] + [last];
      if Succeeded(reply(sent)) {
        var next := sent + 1;
        ChainSnoc(address, frames[1..], last, reply, next);
        assert Answer(reply, next, |frames| - 1) == Answer(reply, sent, |frames|);
      }
    }
  }
}
