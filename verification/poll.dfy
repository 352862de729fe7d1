/** `poll_zk_ready`: ask a running server for its mode until it stops
    reporting "initializing", giving up after a bounded number of asks. */
module Poll {
  import opened Text
  import opened ZkStatus
  import Srvr

  /** The loop runs while its counter is at most this value, so a server that
      keeps initializing is asked `MaxCount + 1` times. */
  const MaxCount: nat := 100

  /** The `n`-th reply (counting from 0) reads as a server still initializing. */
  predicate StillInitializing(replies: nat -> string, n: nat) {
    Srvr.GetZookeeperMode(replies(n)) == Srvr.Initializing
  }

  /** The maintenance status reported after the `count`-th "initializing" reply. */
  function PollingStatus(count: nat): Status {
    Status(Maintenance, "Polling Zookeeper, still initializing: " + NatToString(count) + ".")
  }

  /** The statuses reported after the first `count` "initializing" replies. */
  function PollingStatuses(count: nat): seq<Status> {
    if count == 0 then [] else PollingStatuses(count - 1) + [PollingStatus(count - 1)]
  }

  /** The `n`-th status reported names `n`: one status per "initializing"
      reply, counting from 0, in order. */
  lemma {:induction false} PollingStatusesCount(count: nat)
    ensures |PollingStatuses(count)| == count
    ensures forall n :: 0 <= n < count ==> PollingStatuses(count)[n] == PollingStatus(n)
  {
    if count > 0 {
      PollingStatusesCount(count - 1);
    }
  }

  /** Polls the server. `running` is what the service manager says about the
      `zookeeper` service; `replies(n)` is the text the server sends back to
      the `n`-th `srvr` command. Returns whether the server became ready, how
      many commands were sent and the statuses reported on the way. */
  method PollZkReady(running: bool, replies: nat -> string) returns (ready: bool, asked: nat, reports: seq<Status>)
    ensures !running ==> !ready && asked == 0 && reports == []
    ensures running ==> 1 <= asked <= MaxCount + 1
    ensures ready ==> !StillInitializing(replies, asked - 1)
    ensures forall n: nat :: n < asked - 1 ==> StillInitializing(replies, n)
    ensures running && !ready ==> asked == MaxCount + 1 && StillInitializing(replies, MaxCount)
    ensures reports == PollingStatuses(if ready then asked - 1 else asked)
  {
    if !running {
      return false, 0, [];
    }
    var count: nat := 0;
    reports := [];
    while count <= MaxCount
      invariant count <= MaxCount + 1
      invariant forall n: nat :: n < count ==> StillInitializing(replies, n)
      invariant reports == PollingStatuses(count)
    {
      if StillInitializing(replies, count) {
        InitializingPrefixGrows(replies, count);
        reports := reports + [PollingStatus(count)];
        count := count + 1;
      } else {
        return true, count + 1, reports;
      }
    }
    return false, count, reports;
  }

  /** The run of "initializing" replies at the front grows by one reply. */
  lemma InitializingPrefixGrows(replies: nat -> string, count: nat)
    requires forall n: nat :: n < count ==> StillInitializing(replies, n)
    requires StillInitializing(replies, count)
    ensures forall n: nat :: n < count + 1 ==> StillInitializing(replies, n)
  {
  }

  /** The outcome the poll must have: with `k` "initializing" replies followed
      by any other, the server is ready after `k + 1` commands exactly when `k`
      is within the bound; otherwise, and when the service is not running,
      it is not ready. */
  function ExpectedPoll(running: bool, k: nat): (bool, nat)
  {
    if !running then (false, 0)
    else if k <= MaxCount then (true, k + 1)
    else (false, MaxCount + 1)
  }

  /** A reply that is not "initializing" lies past every run of
      "initializing" replies at the front. */
  lemma NotInitializingPastPrefix(replies: nat -> string, prefix: nat, k: nat)
    requires forall n: nat :: n < prefix ==> StillInitializing(replies, n)
    requires !StillInitializing(replies, k)
    ensures prefix <= k
  {
  }

  /** The loop's result agrees with `ExpectedPoll` for every reply sequence
      whose first reply that is not "initializing" sits at index `k`. */
  method PollAgreesWithExpected(running: bool, replies: nat -> string, k: nat) returns (ready: bool, asked: nat)
    requires forall n: nat :: n < k ==> StillInitializing(replies, n)
    requires !StillInitializing(replies, k)
    ensures (ready, asked) == ExpectedPoll(running, k)
  {
    var reports;
    ready, asked, reports := PollZkReady(running, replies);
    if running {
      if ready {
        NotInitializingPastPrefix(replies, asked - 1, k);
        NotInitializingPastPrefix(replies, k, asked - 1);
        assert asked == k + 1 && k <= MaxCount;
      } else {
        InitializingPrefixGrows(replies, MaxCount);
        NotInitializingPastPrefix(replies, MaxCount + 1, k);
        assert asked == MaxCount + 1 && MaxCount < k;
      }
    }
  }
}
