/** The append-only chain as the key server reads it: blocks of AppUpgraded logs. */
module Chain {
  import opened Prelude
  import opened Claims
  import opened Crypto

  type Address = nat

  datatype Artifact = Artifact(digest: Hash32, registry: string)

  datatype Release = Release(artifacts: seq<Artifact>, publicEnv: EnvText, encryptedEnv: SealedText)

  /** A raw AppUpgraded log. `release` is what unpacking it under the configured ABI
      yields, or None where unpacking fails. */
  datatype Log = Log(app: Address, blockNumber: nat, index: nat, releaseId: nat, release: Option<Release>)

  type Block = seq<Log>

  /** Logs carry their block's number and increasing indices; numbers fit uint32, as
      the contract stores them. */
  ghost predicate ValidChain(chain: seq<Block>) {
    && |chain| <= 0x1_0000_0000
    && (forall n, i :: 0 <= n < |chain| && 0 <= i < |chain[n]| ==> chain[n][i].blockNumber == n)
    && (forall n, i, j :: 0 <= n < |chain| && 0 <= i < j < |chain[n]| ==> chain[n][i].index < chain[n][j].index)
  }

  /** The logs of one app in one block, in order. */
  function AppLogs(block: Block, app: Address): seq<Log> {
    if block == [] then []
    else
      var init := AppLogs(block[..|block| - 1], app);
      if block[|block| - 1].app == app then init + [block[|block| - 1]] else init
  }

  /** What filtering block n for the app selects; no block, no logs. */
  function LogsAt(chain: seq<Block>, n: nat, app: Address): seq<Log> {
    if n < |chain| then AppLogs(chain[n], app) else []
  }

  /** Every upgrade of the app, oldest first. */
  function History(chain: seq<Block>, app: Address): seq<Log> {
    if chain == [] then [] else History(chain[..|chain| - 1], app) + AppLogs(chain[|chain| - 1], app)
  }

  /** The simple specification: the app's last upgrade in the chain. */
  function LastUpgrade(chain: seq<Block>, app: Address): Option<Log> {
    var h := History(chain, app);
    if h == [] then None else Some(h[|h| - 1])
  }

  /** The contract's view function: the block of the app's last upgrade, 0 without one. */
  function LatestReleaseBlock(chain: seq<Block>, app: Address): (n: nat)
    ensures chain != [] ==> n < |chain|
  {
    if chain == [] then 0
    else if AppLogs(chain[|chain| - 1], app) != [] then |chain| - 1
    else LatestReleaseBlock(chain[..|chain| - 1], app)
  }

  /** The block the contract names holds the last upgrade as its last log of the app;
      without an upgrade it holds none. */
  lemma {:induction false} LatestBlockHoldsLastUpgrade(chain: seq<Block>, app: Address)
    ensures var logs := LogsAt(chain, LatestReleaseBlock(chain, app), app);
            LastUpgrade(chain, app) == if logs == [] then None else Some(logs[|logs| - 1])
  {
    if chain != [] {
      var init := chain[..|chain| - 1];
      LatestBlockHoldsLastUpgrade(init, app);
      if AppLogs(chain[|chain| - 1], app) == [] {
        assert History(chain, app) == History(init, app);
        var n := LatestReleaseBlock(init, app);
        if init != [] {
          assert chain[n] == init[n];
        } else {
          assert chain[0] == chain[|chain| - 1];
        }
      }
    }
  }

  /** What a growing chain has shown stays: an earlier state's block reads the same later. */
  lemma LogsStay(before: seq<Block>, now: seq<Block>, n: nat, app: Address)
    requires before <= now && n < |before|
    ensures LogsAt(before, n, app) == LogsAt(now, n, app)
  {
    assert before[n] == now[n];
  }

  lemma {:induction false} AppLogsIncrease(block: Block, app: Address)
    requires forall i, j :: 0 <= i < j < |block| ==> block[i].index < block[j].index
    ensures forall i :: 0 <= i < |AppLogs(block, app)| ==>
      AppLogs(block, app)[i] in block && AppLogs(block, app)[i].app == app
    ensures forall i, j :: 0 <= i < j < |AppLogs(block, app)| ==>
      AppLogs(block, app)[i].index < AppLogs(block, app)[j].index
  {
    if block != [] {
      var init, last := block[..|block| - 1], block[|block| - 1];
      AppLogsIncrease(init, app);
      assert forall l :: l in init ==> l in block && l.index < last.index;
    }
  }

  lemma {:induction false} HistoryOfApp(chain: seq<Block>, app: Address)
    requires ValidChain(chain)
    ensures forall i :: 0 <= i < |History(chain, app)| ==> History(chain, app)[i].app == app
    ensures forall i, j :: 0 <= i < j < |History(chain, app)| ==>
      var a, b := History(chain, app)[i], History(chain, app)[j];
      a.blockNumber < b.blockNumber || (a.blockNumber == b.blockNumber && a.index < b.index)
    ensures forall i :: 0 <= i < |History(chain, app)| ==> History(chain, app)[i].blockNumber < |chain|
  {
    if chain != [] {
      var n := |chain| - 1;
      HistoryOfApp(chain[..n], app);
      AppLogsIncrease(chain[n], app);
      assert forall l :: l in chain[n] ==> l.blockNumber == n;
    }
  }

  /** The last upgrade is the strict maximum of (block, index) over the app's history. */
  lemma LastUpgradeIsMaximal(chain: seq<Block>, app: Address, i: nat)
    requires ValidChain(chain) && i < |History(chain, app)|
    ensures var a, last := History(chain, app)[i], LastUpgrade(chain, app).value;
            a == last || a.blockNumber < last.blockNumber || (a.blockNumber == last.blockNumber && a.index < last.index)
  {
    HistoryOfApp(chain, app);
  }

  lemma {:induction false} AppLogsAreAll(block: Block, app: Address)
    ensures forall l :: l in AppLogs(block, app) <==> l in block && l.app == app
  {
    if block != [] {
      var init, last := block[..|block| - 1], block[|block| - 1];
      AppLogsAreAll(init, app);
      assert block == init + [last];
    }
  }

  /** The history holds the app's logs of every block and nothing else. */
  lemma {:induction false} HistoryIsAll(chain: seq<Block>, app: Address)
    ensures forall l :: l in History(chain, app) <==> l.app == app && exists n :: 0 <= n < |chain| && l in chain[n]
  {
    if chain != [] {
      var init, last := chain[..|chain| - 1], chain[|chain| - 1];
      HistoryIsAll(init, app);
      AppLogsAreAll(last, app);
      forall l ensures (exists n :: 0 <= n < |chain| && l in chain[n]) <==>
        l in last || exists n :: 0 <= n < |init| && l in init[n]
      {
        if n :| 0 <= n < |chain| && l in chain[n] {
          assert n < |init| ==> l in init[n];
        }
        if l in last {
          assert l in chain[|chain| - 1];
        }
        if n :| 0 <= n < |init| && l in init[n] {
          assert l in chain[n];
        }
      }
    }
  }
}
