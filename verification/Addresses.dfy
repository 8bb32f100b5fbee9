/** Addresses derived from an app's mnemonic: by the application itself
    (pkg/crypto/crypto.go, pkg/envclient/envclient.go) and by the address endpoints
    (internal/handlers/addresses.go). */
module Addresses {
  import opened Prelude
  import opened Text
  import opened Externals
  import opened EnvHandler

  const MAX_ADDRESSES: nat := 100
  const NUM_ADDRESSES_TO_DERIVE: nat := 5

  /** The wallet library: whether a mnemonic makes a wallet, and its account at an
      index of m/44'/60'/0'/0/i and m/44'/501'/i'/0'. */
  datatype Wallet = Wallet(
    opens: string -> bool, evmAt: (string, nat) -> Option<string>, solanaAt: (string, nat) -> Option<string>)

  /** An address with the index its derivation path ends in. */
  datatype Entry = Entry(address: string, index: nat)

  datatype Derived = Derived(evm: seq<Entry>, solana: seq<Entry>)

  /** The first `count` addresses of both kinds; None if any derivation fails. */
  function FirstAddresses(w: Wallet, mnemonic: string, count: nat): Option<Derived> {
    if !w.opens(mnemonic) then None
    else if count == 0 then Some(Derived([], []))
    else
      var i := count - 1;
      match (FirstAddresses(w, mnemonic, i), w.evmAt(mnemonic, i), w.solanaAt(mnemonic, i))
      case (Some(d), Some(e), Some(s)) => Some(Derived(d.evm + [Entry(e, i)], d.solana + [Entry(s, i)]))
      case _ => None
  }

  /** DeriveAddressesFromMnemonic: fills two slices of the requested length. */
  method DeriveAddressesFromMnemonic(w: Wallet, mnemonic: string, count: nat) returns (r: Option<Derived>)
    ensures r == FirstAddresses(w, mnemonic, count)
  {
    var evm := new Entry[count](_ => Entry("", 0));
    var solana := new Entry[count](_ => Entry("", 0));
    if !w.opens(mnemonic) {
      return None;
    }
    var i := 0;
    while i < count
      invariant 0 <= i <= count
      invariant FirstAddresses(w, mnemonic, i) == Some(Derived(evm[..i], solana[..i]))
    {
      var evmAccount := w.evmAt(mnemonic, i);
      var solanaWallet := w.solanaAt(mnemonic, i);
      if evmAccount.None? || solanaWallet.None? {
        NoMoreAddresses(w, mnemonic, i + 1, count);
        return None;
      }
      evm[i] := Entry(evmAccount.value, i);
      solana[i] := Entry(solanaWallet.value, i);
      assert evm[..i + 1] == evm[..i] + [Entry(evmAccount.value, i)];
      assert solana[..i + 1] == solana[..i] + [Entry(solanaWallet.value, i)];
      i := i + 1;
    }
    assert evm[..] == evm[..i] && solana[..] == solana[..i];
    return Some(Derived(evm[..], solana[..]));
  }

  lemma {:induction false} NoMoreAddresses(w: Wallet, mnemonic: string, n: nat, m: nat)
    requires n <= m && FirstAddresses(w, mnemonic, n).None?
    ensures FirstAddresses(w, mnemonic, m).None?
  {
    if n < m {
      NoMoreAddresses(w, mnemonic, n, m - 1);
    }
  }

  /** Asking for fewer addresses gives the first ones of asking for more. */
  lemma {:induction false} FewerIsPrefix(w: Wallet, mnemonic: string, n: nat, m: nat)
    requires n <= m && FirstAddresses(w, mnemonic, m).Some?
    ensures FirstAddresses(w, mnemonic, n).Some?
    ensures var few, many := FirstAddresses(w, mnemonic, n).value, FirstAddresses(w, mnemonic, m).value;
      |few.evm| == |few.solana| == n && few.evm <= many.evm && few.solana <= many.solana
  {
    if n < m {
      FewerIsPrefix(w, mnemonic, n, m - 1);
    } else if n > 0 {
      FewerIsPrefix(w, mnemonic, n - 1, n - 1);
    }
  }

  /** The i-th entry of each list is the wallet's i-th account of that kind, and a list is
      there exactly when the wallet opens and every account derives. */
  lemma {:induction false} FirstAddressesAre(w: Wallet, mnemonic: string, count: nat)
    ensures FirstAddresses(w, mnemonic, count).Some? <==>
      && w.opens(mnemonic)
      && (forall i: nat :: i < count ==> w.evmAt(mnemonic, i).Some? && w.solanaAt(mnemonic, i).Some?)
    ensures FirstAddresses(w, mnemonic, count).Some? ==>
      var d := FirstAddresses(w, mnemonic, count).value;
      && |d.evm| == |d.solana| == count
      && forall i: nat :: i < count ==>
           w.evmAt(mnemonic, i) == Some(d.evm[i].address) && w.solanaAt(mnemonic, i) == Some(d.solana[i].address)
           && d.evm[i].index == d.solana[i].index == i
  {
    if count > 0 {
      FirstAddressesAre(w, mnemonic, count - 1);
    }
  }

  // ----------------------------------------------------------------- endpoint

  /** The count parameter as Atoi reads it. */
  datatype CountParam = Absent | Number(n: int) | NotANumber

  datatype AddressAnswer = AddressesOf(appId: string, derived: Derived) | AddressError(status: nat)

  function AnswerAddresses(o: Outside, w: Wallet, appIdQuery: string, countParam: CountParam): AddressAnswer {
    var appId := Lower(appIdQuery);
    if appId == "" then AddressError(400)
    else
      var count := if countParam.Absent? then Number(1) else countParam;
      if count.NotANumber? || count.n <= 0 || count.n > MAX_ADDRESSES then AddressError(400)
      else
        match o.deriveMnemonic(appId)
        case None => AddressError(500)
        case Some(mnemonic) =>
          match FirstAddresses(w, mnemonic, count.n)
          case None => AddressError(500)
          case Some(d) => AddressesOf(appId, d)
  }

  /** When the endpoint answers and which status it refuses with: an app id, a count from 1
      to 100, 1 by default, a mnemonic and every derivation are needed. */
  lemma EndpointReads(o: Outside, w: Wallet, query: string, count: CountParam)
    ensures var r := AnswerAddresses(o, w, query, count);
      if Lower(query) == "" || count.NotANumber? || (count.Number? && !(1 <= count.n <= 100))
      then r == AddressError(400)
      else
        var mnemonic, n := o.deriveMnemonic(Lower(query)), if count.Absent? then 1 else count.n;
        if mnemonic.None? || FirstAddresses(w, mnemonic.value, n).None? then r == AddressError(500)
        else r == AddressesOf(Lower(query), FirstAddresses(w, mnemonic.value, n).value)
  {
  }

  /** What the application derives and logs on receiving its environment. */
  function ClientAddresses(w: Wallet, env: Env): Option<Derived> {
    FirstAddresses(w, ValueAt(env, MNEMONIC), NUM_ADDRESSES_TO_DERIVE)
  }

  /** How many addresses a request asks for. */
  function Requested(count: CountParam): int {
    match count
    case Absent => 1
    case Number(n) => n
    case NotANumber => 0
  }

  /** The endpoint gives n addresses of each kind and the application derives its own
      number of them, and the shorter list opens the longer one. */
  ghost predicate Agree(mine: Derived, theirs: Derived, n: int) {
    && |mine.evm| == |mine.solana| == NUM_ADDRESSES_TO_DERIVE && |theirs.evm| == |theirs.solana| == n
    && if n >= NUM_ADDRESSES_TO_DERIVE
       then theirs.evm[..NUM_ADDRESSES_TO_DERIVE] == mine.evm && theirs.solana[..NUM_ADDRESSES_TO_DERIVE] == mine.solana
       else mine.evm[..n] == theirs.evm && mine.solana[..n] == theirs.solana
  }

  /** For an app whose environment leaves the mnemonic alone, the endpoint returns exactly
      as many addresses as asked for, and they are the app's first ones or begin with
      the app's, whatever the casing of the query, when lower-casing it gives the id. */
  lemma AddressesAgree(o: Outside, w: Wallet, appId: string, privateEnv: Env, publicEnv: Env, query: string,
      count: CountParam)
    requires o.deriveMnemonic(appId).Some?
    requires var m := o.deriveMnemonic(appId).value; ValueAt(Combined(m, privateEnv, publicEnv), MNEMONIC) == m
    requires Lower(query) == appId
    requires AnswerAddresses(o, w, query, count).AddressesOf?
    ensures var mine := ClientAddresses(w, Combined(o.deriveMnemonic(appId).value, privateEnv, publicEnv));
      && (Requested(count) >= NUM_ADDRESSES_TO_DERIVE ==> mine.Some?)
      && (mine.Some? ==> Agree(mine.value, AnswerAddresses(o, w, query, count).derived, Requested(count)))
    ensures AnswerAddresses(o, w, query, count).appId == appId
  {
    var mnemonic := o.deriveMnemonic(appId).value;
    var n := Requested(count);
    FewerIsPrefix(w, mnemonic, n, n);
    if n >= NUM_ADDRESSES_TO_DERIVE {
      FewerIsPrefix(w, mnemonic, NUM_ADDRESSES_TO_DERIVE, n);
    } else if FirstAddresses(w, mnemonic, NUM_ADDRESSES_TO_DERIVE).Some? {
      FewerIsPrefix(w, mnemonic, n, NUM_ADDRESSES_TO_DERIVE);
      FewerIsPrefix(w, mnemonic, NUM_ADDRESSES_TO_DERIVE, NUM_ADDRESSES_TO_DERIVE);
    }
  }

  ghost predicate MnemonicsDiffer(o: Outside) {
    forall a, b :: o.deriveMnemonic(a).Some? && o.deriveMnemonic(a) == o.deriveMnemonic(b) ==> a == b
  }

  /** Some query reaches the app's own mnemonic exactly when the app id is lower case:
      the endpoint lower-cases what it is asked, the release path does not. */
  lemma EndpointReachesAppIff(o: Outside, appId: string)
    requires MnemonicsDiffer(o) && o.deriveMnemonic(appId).Some?
    ensures (exists query :: o.deriveMnemonic(Lower(query)) == o.deriveMnemonic(appId)) <==> Lower(appId) == appId
  {
    LowerIdempotent(appId);
    if query :| o.deriveMnemonic(Lower(query)) == o.deriveMnemonic(appId) {
      LowerIdempotent(query);
    }
  }
}
