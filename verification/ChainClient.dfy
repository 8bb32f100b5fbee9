/** GetLatestRelease (pkg/chainclient/chainclient.go): two separate chain reads, the
    log iterator and the search for the largest log index. */
module ChainClient {
  import opened Prelude
  import opened Claims
  import opened Crypto
  import opened Chain
  import opened LogIterator

  datatype LookupError = BlockNumberRead | FilterRead | NoUpgrade | ArtifactCount | BadPublicEnv

  datatype Lookup = Found(digest: Hash32, publicEnv: Env, encryptedEnv: SealedText) | NotFound(error: LookupError)

  /** What the lookup makes of the log it settled on. */
  function Extract(r: AppRelease): Lookup {
    if |r.digests| != 1 then NotFound(ArtifactCount)
    else if r.publicEnv.NotEnv? then NotFound(BadPublicEnv)
    else Found(r.digests[0], r.publicEnv.env, r.encryptedEnv)
  }

  /** An answer read off the chosen log's own release: one artifact and a public environment
      that parses, and exactly their contents; otherwise the error that says why not. */
  ghost predicate Reads(r: Lookup, log: Option<Log>) {
    && (r == NotFound(NoUpgrade) <==> log.None? || log.value.release.None?)
    && (r == NotFound(ArtifactCount) <==>
          log.Some? && log.value.release.Some? && |log.value.release.value.artifacts| != 1)
    && (r == NotFound(BadPublicEnv) <==>
          && log.Some? && log.value.release.Some? && |log.value.release.value.artifacts| == 1
          && log.value.release.value.publicEnv.NotEnv?)
    && (forall d, p, e :: r == Found(d, p, e) <==>
          && log.Some? && log.value.release.Some? && |log.value.release.value.artifacts| == 1
          && log.value.release.value.artifacts[0].digest == d
          && log.value.release.value.publicEnv == EnvJson(p) && log.value.release.value.encryptedEnv == e)
    && (r.Found? || r.error in {NoUpgrade, ArtifactCount, BadPublicEnv})
  }

  lemma ExtractReads(log: Log)
    requires log.release.Some?
    ensures Reads(Extract(Project(log)), Some(log))
  {
  }

  /** The simple specification: extract the app's last upgrade. */
  function LatestRelease(chain: seq<Block>, app: Address): Lookup {
    var last := LastUpgrade(chain, app);
    if last.None? || last.value.release.None? then NotFound(NoUpgrade) else Extract(Project(last.value))
  }

  predicate AllUnpack(logs: seq<Log>) {
    forall i :: 0 <= i < |logs| ==> logs[i].release.Some?
  }

  /** The first log of largest index, as the loop keeps it. */
  function TopOf(logs: seq<Log>): (top: Option<Log>)
    ensures top.None? <==> logs == []
    ensures top.Some? ==> top.value in logs && forall l :: l in logs ==> l.index <= top.value.index
  {
    if logs == [] then None
    else
      var init, last := logs[..|logs| - 1], logs[|logs| - 1];
      var top := TopOf(init);
      assert logs == init + [last];
      if top.None? || last.index > top.value.index then Some(last) else top
  }

  /** The answer for the logs the iterator delivered. */
  function AnswerFrom(delivered: seq<Log>): Lookup
    requires AllUnpack(delivered)
  {
    var top := TopOf(delivered);
    if top.None? then NotFound(NoUpgrade) else Extract(Project(top.value))
  }

  /** The chain behind the RPC endpoint. Anyone may append blocks between two reads. */
  class Ledger {
    var chain: seq<Block>

    ghost predicate Valid()
      reads this
    {
      ValidChain(chain) && chain != []
    }

    constructor (genesis: Block)
      requires ValidChain([genesis])
      ensures Valid() && chain == [genesis]
    {
      chain := [genesis];
    }

    method Grow()
      requires Valid()
      modifies this
      ensures Valid() && old(chain) <= chain
    {
      var blocks: nat := *;
      while blocks > 0
        invariant Valid() && old(chain) <= chain
      {
        blocks := blocks - 1;
        ghost var before := chain;
        var block: Block := *;
        var fits := |chain| < 0x1_0000_0000
          && (forall i :: 0 <= i < |block| ==> block[i].blockNumber == |chain|)
          && (forall i, j :: 0 <= i < j < |block| ==> block[i].index < block[j].index);
        if fits {
          chain := chain + [block];
          assert forall n :: 0 <= n < |before| ==> chain[n] == before[n];
        }
      }
    }

    /** The contract call; None is an RPC error. */
    method GetAppLatestReleaseBlockNumber(app: Address) returns (n: Option<nat>)
      requires Valid()
      modifies this
      ensures Valid() && old(chain) <= chain
      ensures n.Some? ==> n.value == LatestReleaseBlock(chain, app)
    {
      Grow();
      var answered: bool := *;
      n := if answered then Some(LatestReleaseBlock(chain, app)) else None;
    }

    /** eth_getLogs for one block and app, and an iterator over the answer. The answer
        may come in any order. */
    method FilterAppUpgraded(n: nat, app: Address) returns (r: Option<AppUpgradedIterator>)
      requires Valid()
      modifies this
      ensures Valid() && old(chain) <= chain
      ensures r.Some? ==>
        && fresh(r.value) && r.value.Valid() && r.value.delivered == [] && !r.value.fail
        && multiset(r.value.all) == multiset(LogsAt(chain, n, app))
    {
      Grow();
      var answered: bool := *;
      if !answered {
        return None;
      }
      var capacity: nat := *;
      var logs: seq<Log> := *;
      if multiset(logs) != multiset(LogsAt(chain, n, app)) {
        logs := LogsAt(chain, n, app);
      }
      var appUpgrades := new AppUpgradedIterator(capacity, logs);
      r := Some(appUpgrades);
    }
  }

  /** What the iterator went through: the logs in the order the endpoint returned them,
      those delivered, and whether the subscription ended in an error. All logs are
      delivered unless it did or the next one does not unpack. */
  ghost predicate Iterated(order: seq<Log>, delivered: seq<Log>, subscriptionError: bool) {
    && delivered <= order && AllUnpack(delivered)
    && (delivered == order || subscriptionError || order[|delivered|].release.None?)
  }

  /** The loop over the iterator: keeps the release of largest log index. The code never
      asks the iterator for its error. */
  method LastOf(appUpgrades: AppUpgradedIterator) returns (lastAppUpgrade: Option<AppRelease>)
    requires appUpgrades.Valid() && appUpgrades.delivered == []
    modifies appUpgrades
    ensures appUpgrades.Valid() && appUpgrades.Exhausted()
    ensures Iterated(appUpgrades.all, appUpgrades.delivered, appUpgrades.sub.EndedErr?)
    ensures KeepsTop(appUpgrades.delivered, lastAppUpgrade)
  {
    hide KeepsTop, Iterated;
    lastAppUpgrade := None;
    NothingKept();
    while true
      invariant appUpgrades.Valid()
      invariant KeepsTop(appUpgrades.delivered, lastAppUpgrade)
      decreases |appUpgrades.all| - |appUpgrades.delivered|
    {
      ghost var before := appUpgrades.delivered;
      var more := appUpgrades.Next();
      if !more {
        break;
      }
      KeepsTopStep(before, lastAppUpgrade, appUpgrades.event.value);
      var release := appUpgrades.Event();
      if lastAppUpgrade.None? || release.logIndex > lastAppUpgrade.value.logIndex {
        lastAppUpgrade := Some(release);
      }
    }
    DeliveredSoFar(appUpgrades);
  }

  /** What the loop has kept after some logs. */
  ghost predicate KeepsTop(logs: seq<Log>, kept: Option<AppRelease>) {
    AllUnpack(logs) && kept == if logs == [] then None else Some(Project(TopOf(logs).value))
  }

  lemma NothingKept()
    ensures KeepsTop([], None)
  {
  }

  lemma KeepsTopStep(logs: seq<Log>, kept: Option<AppRelease>, next: Log)
    requires KeepsTop(logs, kept) && next.release.Some?
    ensures KeepsTop(logs + [next],
      if kept.None? || Project(next).logIndex > kept.value.logIndex then Some(Project(next)) else kept)
  {
    assert (logs + [next])[..|logs|] == logs;
  }

  lemma DeliveredSoFar(appUpgrades: AppUpgradedIterator)
    requires appUpgrades.Valid() && appUpgrades.Exhausted()
    requires !appUpgrades.fail ==> appUpgrades.delivered == appUpgrades.all
    ensures Iterated(appUpgrades.all, appUpgrades.delivered, appUpgrades.sub.EndedErr?)
  {
    var rest := appUpgrades.rejected + appUpgrades.buffered + appUpgrades.pending;
    assert appUpgrades.all == appUpgrades.delivered + rest;
    assert appUpgrades.rejected != [] ==> rest[0] == appUpgrades.rejected[0];
  }

  /** A lookup's history: the chain as the first read saw it, and the iteration. */
  datatype Account = Account(seen: seq<Block>, order: seq<Log>, delivered: seq<Log>, subscriptionError: bool)

  method GetLatestRelease(ledger: Ledger, appAddress: Address) returns (r: Lookup, ghost account: Account)
    requires ledger.Valid()
    modifies ledger
    ensures ledger.Valid() && old(ledger.chain) <= ledger.chain
    ensures r != NotFound(BlockNumberRead) && r != NotFound(FilterRead) ==>
      && old(ledger.chain) <= account.seen <= ledger.chain
      && LookupOutcome(r, account, appAddress)
      && Reads(r, TopOf(account.delivered))
  {
    hide Reads;
    r, account := NotFound(BlockNumberRead), Account([], [], [], false);
    var number := ledger.GetAppLatestReleaseBlockNumber(appAddress);
    ghost var seen := ledger.chain;
    if number.None? {
      return;
    }
    r := NotFound(FilterRead);
    var found := ledger.FilterAppUpgraded(number.value, appAddress);
    if found.None? {
      return;
    }
    var appUpgrades := found.value;
    LogsStay(seen, ledger.chain, number.value, appAddress);

    var lastAppUpgrade := LastOf(appUpgrades);
    account := Account(seen, appUpgrades.all, appUpgrades.delivered, appUpgrades.sub.EndedErr?);
    if lastAppUpgrade.None? {
      r := NotFound(NoUpgrade);
    } else if |lastAppUpgrade.value.digests| != 1 {
      r := NotFound(ArtifactCount);
    } else if lastAppUpgrade.value.publicEnv.NotEnv? {
      r := NotFound(BadPublicEnv);
    } else {
      r := Found(lastAppUpgrade.value.digests[0], lastAppUpgrade.value.publicEnv.env,
        lastAppUpgrade.value.encryptedEnv);
    }
    AnswerReads(account.delivered);
  }

  lemma AnswerReads(delivered: seq<Log>)
    requires AllUnpack(delivered)
    ensures Reads(AnswerFrom(delivered), TopOf(delivered))
  {
    if delivered != [] {
      ExtractReads(TopOf(delivered).value);
    }
  }

  /** The app's logs in the block the first read names. */
  function NamedLogs(seen: seq<Block>, app: Address): seq<Log> {
    LogsAt(seen, LatestReleaseBlock(seen, app), app)
  }

  /** What a lookup answered: the iterator went over the app's logs in the named block,
      in some order, and the answer extracts the delivered one of largest index. */
  ghost predicate LookupOutcome(r: Lookup, account: Account, app: Address) {
    && multiset(account.order) == multiset(NamedLogs(account.seen, app))
    && Iterated(account.order, account.delivered, account.subscriptionError)
    && r == AnswerFrom(account.delivered)
  }

  // --------------------------------------------------- against the specification

  /** The logs before the first one that does not unpack. */
  function Unpacking(logs: seq<Log>): (r: seq<Log>)
    ensures r <= logs && AllUnpack(r)
    ensures r == logs || logs[|r|].release.None?
  {
    if logs == [] || logs[0].release.None? then [] else [logs[0]] + Unpacking(logs[1..])
  }

  /** Without a subscription error the answer is fixed by the logs and their order: the
      iterator delivers those before the first that does not unpack. */
  lemma AnswersFromUnpacking(r: Lookup, account: Account, app: Address)
    requires LookupOutcome(r, account, app) && !account.subscriptionError
    ensures account.delivered == Unpacking(account.order)
    ensures r == AnswerFrom(Unpacking(account.order))
  {
    var d, e, order := account.delivered, Unpacking(account.order), account.order;
    assert forall i :: 0 <= i < |d| ==> d[i] == order[i];
    assert forall i :: 0 <= i < |e| ==> e[i] == order[i];
    assert |d| == |e|;
  }

  lemma NamedLogsIncrease(seen: seq<Block>, app: Address)
    requires ValidChain(seen)
    ensures IndexOrder(NamedLogs(seen, app))
  {
    var n := LatestReleaseBlock(seen, app);
    if n < |seen| {
      AppLogsIncrease(seen[n], app);
    }
  }

  ghost predicate IndexOrder(logs: seq<Log>) {
    forall i, j :: 0 <= i < j < |logs| ==> logs[i].index < logs[j].index
  }

  /** Among some of the named logs the last upgrade is on top exactly when it is there. */
  lemma TopIsLastIff(seen: seq<Block>, app: Address, some: seq<Log>)
    requires ValidChain(seen) && multiset(some) <= multiset(NamedLogs(seen, app))
    ensures some == [] || TopOf(some).value in NamedLogs(seen, app)
    ensures TopOf(some) == LastUpgrade(seen, app) <==>
      LastUpgrade(seen, app).Some? ==> LastUpgrade(seen, app).value in some
  {
    hide ValidChain, LastUpgrade, NamedLogs, TopOf;
    var logs := NamedLogs(seen, app);
    LastOfNamed(seen, app);
    NamedLogsIncrease(seen, app);
    AmongNamed(some, logs);
    if some != [] {
      assert TopOf(some).value in some;
    }
    if logs != [] {
      TopOfAmong(logs, some);
    } else {
      assert TopOf(some).None?;
    }
  }

  lemma AmongNamed(some: seq<Log>, logs: seq<Log>)
    requires multiset(some) <= multiset(logs)
    ensures forall l :: l in some ==> l in logs
    ensures logs == [] ==> some == []
  {
    forall l | l in some ensures l in logs {
      assert l in multiset(some);
      assert l in multiset(logs);
    }
    assert some != [] ==> some[0] in some;
  }

  lemma LastOfNamed(seen: seq<Block>, app: Address)
    ensures var logs := NamedLogs(seen, app);
      LastUpgrade(seen, app) == if logs == [] then None else Some(logs[|logs| - 1])
  {
    LatestBlockHoldsLastUpgrade(seen, app);
  }

  lemma TopOfAmong(logs: seq<Log>, some: seq<Log>)
    requires IndexOrder(logs) && logs != [] && forall l :: l in some ==> l in logs
    ensures TopOf(some) == Some(logs[|logs| - 1]) <==> logs[|logs| - 1] in some
  {
    if logs[|logs| - 1] in some {
      var i :| 0 <= i < |logs| && logs[i] == TopOf(some).value;
    }
  }

  /** Exactly when the lookup settles on the app's last upgrade, in whatever order the
      logs come: the last upgrade must stand before the first log that does not unpack. */
  lemma SettlesInAnyOrderIff(r: Lookup, account: Account, app: Address)
    requires ValidChain(account.seen) && LookupOutcome(r, account, app) && !account.subscriptionError
    ensures var last := LastUpgrade(account.seen, app);
      TopOf(account.delivered) == last <==> (last.Some? ==> last.value in Unpacking(account.order))
  {
    hide ValidChain, LastUpgrade, NamedLogs, TopOf, Unpacking, AnswerFrom;
    AnswersFromUnpacking(r, account, app);
    DeliveredAreNamed(r, account, app);
    TopIsLastIff(account.seen, app, account.delivered);
  }

  lemma DeliveredAreNamed(r: Lookup, account: Account, app: Address)
    requires LookupOutcome(r, account, app)
    ensures multiset(account.delivered) <= multiset(NamedLogs(account.seen, app))
  {
    hide NamedLogs, AnswerFrom;
    assert account.order == account.delivered + account.order[|account.delivered|..];
  }

  /** For logs in index order, as an endpoint lists a block: the lookup settles on the
      last upgrade if and only if every log of the app in the named block unpacks. */
  lemma SettlesOnLatestIff(r: Lookup, account: Account, app: Address)
    requires ValidChain(account.seen) && LookupOutcome(r, account, app) && !account.subscriptionError
    requires IndexOrder(account.order)
    ensures TopOf(account.delivered) == LastUpgrade(account.seen, app) <==> AllUnpack(NamedLogs(account.seen, app))
  {
    hide ValidChain, LastUpgrade, NamedLogs, TopOf, Unpacking, AnswerFrom;
    var order, logs := account.order, NamedLogs(account.seen, app);
    SettlesInAnyOrderIff(r, account, app);
    LastOfNamed(account.seen, app);
    NamedLogsIncrease(account.seen, app);
    SameUnpack(order, logs);
    if logs != [] {
      SameLast(order, logs);
      LastUnpacksIff(order);
    }
  }

  lemma SameUnpack(order: seq<Log>, logs: seq<Log>)
    requires multiset(order) == multiset(logs)
    ensures AllUnpack(order) <==> AllUnpack(logs)
    ensures order == [] <==> logs == []
  {
    assert forall l :: l in order <==> l in multiset(order);
    assert forall l :: l in logs <==> l in multiset(logs);
    assert |multiset(order)| == |order| && |multiset(logs)| == |logs|;
    if AllUnpack(order) {
      assert forall l :: l in order ==> l.release.Some?;
    }
    if AllUnpack(logs) {
      assert forall l :: l in logs ==> l.release.Some?;
    }
  }

  lemma SameLast(order: seq<Log>, logs: seq<Log>)
    requires multiset(order) == multiset(logs) && IndexOrder(order) && IndexOrder(logs) && logs != [] && order != []
    ensures order[|order| - 1] == logs[|logs| - 1]
  {
    var x, y := order[|order| - 1], logs[|logs| - 1];
    assert x in multiset(logs) && y in multiset(order);
    var i :| 0 <= i < |logs| && logs[i] == x;
    var j :| 0 <= j < |order| && order[j] == y;
  }

  lemma LastUnpacksIff(order: seq<Log>)
    requires IndexOrder(order) && order != []
    ensures order[|order| - 1] in Unpacking(order) <==> AllUnpack(order)
  {
    hide Unpacking;
    var e := Unpacking(order);
    assert e == order[..|e|];
    if order[|order| - 1] in e {
      var i :| 0 <= i < |e| && e[i] == order[|order| - 1];
      assert order[i] == e[i];
    }
  }

  /** The answer is the specification's, whatever blocks arrived between the reads and in
      whatever order the logs came, when there was no subscription error and every log of
      the app in the named block unpacks. */
  lemma LookupRefinesSpec(r: Lookup, account: Account, app: Address)
    requires ValidChain(account.seen) && LookupOutcome(r, account, app) && !account.subscriptionError
    requires AllUnpack(NamedLogs(account.seen, app))
    ensures r == LatestRelease(account.seen, app)
    ensures Reads(r, LastUpgrade(account.seen, app))
    ensures r == NotFound(NoUpgrade) <==> History(account.seen, app) == []
  {
    LastUpgradeUnpacks(account.seen, app);
    hide Reads, ValidChain, LastUpgrade, NamedLogs, TopOf, Unpacking, History, Extract;
    AnswerReads(account.delivered);
    var order, logs := account.order, NamedLogs(account.seen, app);
    SameUnpack(order, logs);
    AnswersFromUnpacking(r, account, app);
    assert Unpacking(order) == order;
    TopIsLastIff(account.seen, app, order);
    LastOfNamed(account.seen, app);
    assert logs != [] ==> logs[|logs| - 1] in multiset(order) && logs[|logs| - 1] in order;
  }

  lemma LastUpgradeUnpacks(seen: seq<Block>, app: Address)
    requires AllUnpack(NamedLogs(seen, app))
    ensures LastUpgrade(seen, app).None? <==> History(seen, app) == []
    ensures LastUpgrade(seen, app).Some? ==> LastUpgrade(seen, app).value.release.Some?
  {
    hide NamedLogs, History;
    LastOfNamed(seen, app);
  }

  lemma TwoLogBlock(older: Log, newer: Log)
    requires older.app == newer.app
    ensures NamedLogs([[older, newer]], older.app) == [older, newer]
    ensures LastUpgrade([[older, newer]], older.app) == Some(newer)
  {
    assert [older, newer][..1] == [older] && [older][..0] == [];
    assert AppLogs([older], older.app) == [older];
    assert AppLogs([older, newer], older.app) == [older, newer];
    assert [[older, newer]][..0] == [];
    assert History([[older, newer]], older.app) == [older, newer];
  }

  /** A chain on which the lookup must answer an older release: its only block upgrades the
      app twice and the newer log does not unpack. The specification finds no release. */
  lemma UnreadableLogIsStale(r: Lookup, account: Account, older: Log, newer: Log)
    requires older.app == newer.app && older.blockNumber == newer.blockNumber == 0 && older.index < newer.index
    requires older.release.Some? && newer.release.None?
    requires account.seen == [[older, newer]] && account.order == [older, newer] && !account.subscriptionError
    requires LookupOutcome(r, account, older.app)
    ensures ValidChain(account.seen) && LastUpgrade(account.seen, older.app) == Some(newer)
    ensures r == Extract(Project(older)) && LatestRelease(account.seen, older.app) == NotFound(NoUpgrade)
  {
    hide LookupOutcome;
    TwoLogBlock(older, newer);
    AnswersFromUnpacking(r, account, older.app);
    assert [older, newer][1..] == [newer];
    assert Unpacking([newer]) == [];
    assert Unpacking([older, newer]) == [older];
    assert [older][..0] == [];
    assert TopOf([older]) == Some(older);
  }

  /** The code itself on those two logs, whatever the buffer and the interleaving: it keeps
      the older one, or nothing at all after a subscription error. */
  method KeepsOlder(older: Log, newer: Log, capacity: nat)
      returns (kept: Option<AppRelease>, ghost subscriptionError: bool)
    requires older.release.Some? && newer.release.None?
    ensures kept == Some(Project(older)) || (kept == None && subscriptionError)
  {
    var appUpgrades := new AppUpgradedIterator(capacity, [older, newer]);
    kept := LastOf(appUpgrades);
    subscriptionError := appUpgrades.sub.EndedErr?;
    ghost var delivered := appUpgrades.delivered;
    assert forall i :: 0 <= i < |delivered| ==> delivered[i] == [older, newer][i];
    assert delivered == [] || delivered == [older];
    assert [older][..0] == [];
    assert TopOf([older]) == Some(older);
  }
}
