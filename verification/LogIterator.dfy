/** The generated AppUpgraded iterator and the subscription that feeds it
    (AppControllerAppUpgradedIterator in the v1.4 binding): a buffered channel of
    logs, a channel that reports the subscription's end, and the flags `done` and
    `fail`. The producer moves whenever it likes between the consumer's steps. */
module LogIterator {
  import opened Prelude
  import opened Claims
  import opened Crypto
  import opened Chain

  /** How the subscription stands. It ends without error only after sending all. */
  datatype Subscription = Sending | EndedNil | EndedErr

  /** AppRelease: the version-independent projection of an AppUpgraded event. */
  datatype AppRelease = AppRelease(
    releaseId: nat, logIndex: nat, blockNumber: nat, digests: seq<Hash32>, publicEnv: EnvText, encryptedEnv: SealedText)

  function Digests(artifacts: seq<Artifact>): (r: seq<Hash32>)
    ensures |r| == |artifacts|
    ensures forall i :: 0 <= i < |r| ==> r[i] == artifacts[i].digest
  {
    seq(|artifacts|, i requires 0 <= i < |artifacts| => artifacts[i].digest)
  }

  function Project(log: Log): AppRelease
    requires log.release.Some?
  {
    var r := log.release.value;
    AppRelease(log.releaseId, log.index, log.blockNumber, Digests(r.artifacts), r.publicEnv, r.encryptedEnv)
  }

  class AppUpgradedIterator {
    // the generated struct's fields
    var event: Option<Log>
    var done: bool
    var fail: bool
    // the channel of logs and the producer behind it
    const capacity: nat
    var buffered: seq<Log>
    var pending: seq<Log>
    var sub: Subscription
    // history
    ghost const all: seq<Log>
    ghost var delivered: seq<Log>
    ghost var rejected: seq<Log>

    /** No log is lost, doubled or reordered; a log that failed to unpack ends the
        iteration; `done` follows the subscription's end. */
    ghost predicate Valid()
      reads this
    {
      && delivered + rejected + buffered + pending == all
      && |buffered| <= capacity
      && (forall i :: 0 <= i < |delivered| ==> delivered[i].release.Some?)
      && (rejected != [] ==> fail && |rejected| == 1 && rejected[0].release.None?)
      && (sub.EndedNil? ==> pending == [])
      && (done ==> !sub.Sending?)
      && (fail ==> rejected != [] || (done && sub.EndedErr?))
      && (done && sub.EndedErr? ==> fail)
    }

    /** Nothing more will come out. */
    predicate Exhausted()
      reads this
    {
      fail || (done && buffered == [])
    }

    constructor (capacity: nat, logs: seq<Log>)
      ensures Valid() && all == logs && delivered == [] && !fail && !done && sub == Sending
      ensures this.capacity == capacity
    {
      event := None;
      done, fail := false, false;
      this.capacity := capacity;
      buffered, pending, sub := [], logs, Sending;
      all, delivered, rejected := logs, [], [];
    }

    /** Any number of producer moves: sending while there is room, ending with an
        error at any moment, ending without one after the last log. */
    method Interleave()
      requires Valid()
      modifies this`buffered, this`pending, this`sub
      ensures Valid()
      ensures !old(sub).Sending? ==> buffered == old(buffered) && pending == old(pending) && sub == old(sub)
    {
      var moves: nat := *;
      while moves > 0 && sub.Sending?
        invariant Valid()
        invariant !old(sub).Sending? ==> buffered == old(buffered) && pending == old(pending) && sub == old(sub)
      {
        moves := moves - 1;
        if
        case pending != [] && |buffered| < capacity =>
          buffered, pending := buffered + [pending[0]], pending[1..];
        case pending == [] =>
          sub := EndedNil;
        case true =>
          sub := EndedErr;
        case true =>
      }
    }

    /** `log := <-it.logs`, then unpacking: takes the oldest buffered log or, when the
        buffer is empty, the one the producer is blocked on sending. */
    method Receive() returns (more: bool)
      requires Valid() && !fail
      requires buffered != [] || (sub.Sending? && pending != [])
      modifies this
      ensures Valid() && done == old(done) && sub == old(sub)
      ensures |old(delivered)| < |all|
      ensures var log := all[|old(delivered)|];
        if log.release.Some?
        then more && !fail && event == Some(log) && delivered == old(delivered) + [log]
        else !more && fail && delivered == old(delivered) && rejected == [log]
    {
      var log: Log;
      if buffered != [] {
        log, buffered := buffered[0], buffered[1..];
      } else {
        log, pending := pending[0], pending[1..];
      }
      assert log == all[|delivered|];
      if log.release.None? {
        event := None;
        fail := true;
        rejected := [log];
        return false;
      }
      event := Some(log);
      delivered := delivered + [log];
      return true;
    }

    method Next() returns (more: bool)
      requires Valid()
      modifies this
      ensures Valid()
      // each true answer delivers the next log of the full sequence
      ensures more ==>
        && !fail && |old(delivered)| < |all|
        && event == Some(all[|old(delivered)|]) && delivered == old(delivered) + [all[|old(delivered)|]]
      ensures !more ==> delivered == old(delivered)
      // a false answer is final, and without failure it means that all was delivered
      ensures !more ==> Exhausted()
      ensures !more && !fail ==> delivered == all
      ensures old(Exhausted()) ==> !more && fail == old(fail) && done == old(done)
      // failure has a cause: a log that does not unpack or an error end
      ensures fail && !old(fail) ==>
        || (sub.EndedErr? && done)
        || (|delivered| < |all| && all[|delivered|].release.None?)
      ensures old(done) ==> done
      decreases !done
    {
      if fail {
        return false;
      }
      if done {
        if buffered != [] {
          more := Receive();
          return;
        } else {
          return false;
        }
      }
      Interleave();
      if buffered == [] && pending == [] && sub.Sending? {
        // the consumer blocks until the producer ends
        var failed: bool := *;
        sub := if failed then EndedErr else EndedNil;
      }
      if
      case buffered != [] || (sub.Sending? && pending != []) =>
        more := Receive();
      case !sub.Sending? =>
        done := true;
        fail := sub.EndedErr?;
        more := Next();
    }

    /** The adapter's Event: the digests are copied one by one. */
    method Event() returns (r: AppRelease)
      requires event.Some? && event.value.release.Some?
      ensures r == Project(event.value)
    {
      var release := event.value.release.value;
      var digests: seq<Hash32> := [];
      var i := 0;
      while i < |release.artifacts|
        invariant 0 <= i <= |release.artifacts|
        invariant digests == Digests(release.artifacts)[..i]
      {
        digests := digests + [release.artifacts[i].digest];
        i := i + 1;
      }
      r := AppRelease(event.value.releaseId, event.value.index, event.value.blockNumber,
        digests, release.publicEnv, release.encryptedEnv);
    }
  }
}
