/**
 * The `App` component's state machine: the state record, the mount-time load,
 * the `accountsChanged` handler and the `votar` action. Each remote call is
 * reduced to an explicit outcome parameter; each operation runs atomically.
 */
module Client {
  import opened Wrappers
  import opened Contract

  /** Which wallet bridge the browser offers. */
  datatype Provider =
    | Injected(enableAccepted: bool)  // window.ethereum; `enable()` may be refused
    | Legacy                          // window.web3 only
    | Absent                          // neither

  /** What the wallet reports during the mount-time load. */
  datatype Wallet = Wallet(provider: Provider, contas: seq<Account>, redeId: nat)

  /** Why a mount-time load stopped before committing anything. */
  datatype LoadError =
    | NoProvider           // alert, `return false`
    | EnableRejected       // `enable()` threw
    | NoAccount            // `contas[0]` undefined: `getBalance` rejects it
    | NotDeployed          // no deployment for the network id: alert
    | ReadThrew(step: ReadStep)

  /** Everything a successful load commits in its single `setState`. */
  datatype Loaded = Loaded(contrato: Address, conta: Account, candidatos: seq<Candidate>, jaVotei: bool)

  /** The component's state record. */
  datatype Snapshot = Snapshot(
    carregando: bool,
    candidatos: seq<Candidate>,
    conta: Option<Account>,
    contrato: Option<Address>,
    jaVotei: bool)

  /** The state the component starts in. */
  const Initial := Snapshot(true, [], None, None, false)

  /** The account and its voted flag belong together: the flag is that account's. */
  predicate Agrees(s: Snapshot, e: Eleicao)
  {
    s.conta.Some? ==> s.jaVotei == e.HasVoted(s.conta.value)
  }

  /**
   * States every operation keeps: an account is known exactly when a contract
   * handle is, and before that the list is empty and the flag is false.
   */
  predicate Coherent(s: Snapshot)
  {
    && (s.conta.Some? <==> s.contrato.Some?)
    && (s.contrato.None? ==> s.candidatos == [] && !s.jaVotei)
  }

  /**
   * The mount-time load sequence: provider, accounts, balance, network id,
   * deployment lookup, count, candidates `1..n`, voted flag.
   */
  function LoadResult(w: Wallet, networks: map<nat, Address>, e: Eleicao, failsAt: Option<ReadStep>): (r: Result<Loaded, LoadError>)
    ensures w.provider.Absent? ==> r == Failure(NoProvider)
    ensures r.Success? ==> |w.contas| > 0 && r.value.conta == w.contas[0] && r.value.jaVotei == e.HasVoted(r.value.conta)
    ensures r.Success? ==> w.redeId in networks && r.value.contrato == networks[w.redeId]
  {
    if w.provider.Absent? then Failure(NoProvider)
    else if w.provider == Injected(false) then Failure(EnableRejected)
    else if Throws(failsAt, AccountsRead) then Failure(ReadThrew(AccountsRead))
    else if |w.contas| == 0 then Failure(NoAccount)
    else if Throws(failsAt, BalanceRead) then Failure(ReadThrew(BalanceRead))
    else if Throws(failsAt, NetworkIdRead) then Failure(ReadThrew(NetworkIdRead))
    else if w.redeId !in networks then Failure(NotDeployed)
    else if Throws(failsAt, CountRead) then Failure(ReadThrew(CountRead))
    else if CandidateReadThrows(failsAt, e.contagemDeCandidatos) then Failure(ReadThrew(failsAt.value))
    else if Throws(failsAt, VotedRead) then Failure(ReadThrew(VotedRead))
    else
      var conta := w.contas[0];
      Success(Loaded(networks[w.redeId], conta, Ballot(e, e.contagemDeCandidatos), e.HasVoted(conta)))
  }

  /** The state after a load: all five fields at once, or nothing at all. */
  function AfterLoad(s: Snapshot, r: Result<Loaded, LoadError>): Snapshot
  {
    match r
    case Success(l) => Snapshot(false, l.candidatos, Some(l.conta), Some(l.contrato), l.jaVotei)
    case Failure(_) => s
  }

  /** The `accountsChanged` handler: re-read only the flag of the new first account. */
  function OnAccountsChanged(s: Snapshot, accounts: seq<Account>, e: Eleicao, readOk: bool): (r: Snapshot)
    ensures r.candidatos == s.candidatos && r.carregando == s.carregando && r.contrato == s.contrato
    ensures r != s ==> readOk && |accounts| > 0 && r.conta == Some(accounts[0]) && Agrees(r, e)
  {
    if |accounts| > 0 && readOk then s.(conta := Some(accounts[0]), jaVotei := e.HasVoted(accounts[0]))
    else s
  }

  /**
   * `votar`: send the vote, re-read the flag of the current account from the
   * contract as it is after the send, then clear the loading flag.
   */
  function OnVote(s: Snapshot, sendOk: bool, e: Eleicao, rereadOk: bool): (r: Snapshot)
    ensures !r.carregando
    ensures r.candidatos == s.candidatos && r.conta == s.conta && r.contrato == s.contrato
    ensures r.jaVotei != s.jaVotei ==> sendOk && rereadOk && Agrees(r, e)
  {
    if s.contrato.Some? && s.conta.Some? && sendOk && rereadOk
    then s.(carregando := false, jaVotei := e.HasVoted(s.conta.value))
    else s.(carregando := false)
  }

  /** The vote transaction handed to the wallet: candidate id and sender. */
  datatype VoteTx = VoteTx(id: nat, from: Account)

  /**
   * A load succeeds exactly when a usable provider, an account and a
   * deployment exist and no issued read throws; it then installs the
   * candidates `1..n` in id order, the first account, that account's flag and
   * the deployment's address.
   */
  lemma LoadSucceedsIff(w: Wallet, networks: map<nat, Address>, e: Eleicao, failsAt: Option<ReadStep>)
    ensures LoadResult(w, networks, e, failsAt).Success? <==>
      && (w.provider.Legacy? || w.provider == Injected(true))
      && |w.contas| > 0
      && w.redeId in networks
      && (failsAt.None? || (failsAt.value.CandidateRead? && !CandidateReadThrows(failsAt, e.contagemDeCandidatos)))
    ensures LoadResult(w, networks, e, failsAt).Success? ==>
      var l := LoadResult(w, networks, e, failsAt).value;
      && l.contrato == networks[w.redeId]
      && l.conta == w.contas[0]
      && l.jaVotei == e.HasVoted(w.contas[0])
      && |l.candidatos| == e.contagemDeCandidatos
      && forall j :: 0 <= j < |l.candidatos| ==> l.candidatos[j] == e.CandidateAt(j + 1)
  {
    BallotAt(e, e.contagemDeCandidatos);
  }

  /**
   * Load is all-or-nothing: from the initial state it either leaves every
   * field at its initial value or installs a complete, consistent state.
   */
  lemma LoadAllOrNothing(w: Wallet, networks: map<nat, Address>, e: Eleicao, failsAt: Option<ReadStep>)
    ensures var s := AfterLoad(Initial, LoadResult(w, networks, e, failsAt));
      || s == Initial
      || (&& !s.carregando && s.conta == Some(w.contas[0]) && s.contrato == Some(networks[w.redeId])
          && |s.candidatos| == e.contagemDeCandidatos && Agrees(s, e))
    ensures w.provider.Absent? || w.redeId !in networks ==>
      AfterLoad(Initial, LoadResult(w, networks, e, failsAt)) == Initial
    ensures failsAt.Some? && (!failsAt.value.CandidateRead? || 1 <= failsAt.value.id <= e.contagemDeCandidatos) ==>
      AfterLoad(Initial, LoadResult(w, networks, e, failsAt)) == Initial
  {
    BallotAt(e, e.contagemDeCandidatos);
  }

  /**
   * An account change either moves to the new first account together with
   * that account's flag, or changes nothing; the list, the loading flag and
   * the contract handle never change, and agreement with the contract is kept.
   */
  lemma AccountsChangedKeepsPair(s: Snapshot, accounts: seq<Account>, e: Eleicao, readOk: bool)
    ensures var t := OnAccountsChanged(s, accounts, e, readOk);
      && t.candidatos == s.candidatos && t.carregando == s.carregando && t.contrato == s.contrato
      && (if |accounts| > 0 && readOk
          then t.conta == Some(accounts[0]) && t.jaVotei == e.HasVoted(accounts[0])
          else t.conta == s.conta && t.jaVotei == s.jaVotei)
    ensures Agrees(s, e) ==> Agrees(OnAccountsChanged(s, accounts, e, readOk), e)
    ensures |accounts| > 0 && readOk ==> Agrees(OnAccountsChanged(s, accounts, e, readOk), e)
  {
  }

  /**
   * A vote clears the loading flag and leaves the list, the account and the
   * handle alone. When both the send and the re-read succeed, the flag is
   * the re-read one for the current account; otherwise it is unchanged.
   */
  lemma VoteOutcome(s: Snapshot, sendOk: bool, e: Eleicao, rereadOk: bool)
    requires Coherent(s)
    ensures var t := OnVote(s, sendOk, e, rereadOk);
      && !t.carregando
      && t.candidatos == s.candidatos && t.conta == s.conta && t.contrato == s.contrato
      && (if s.contrato.Some? && sendOk && rereadOk then Agrees(t, e) else t.jaVotei == s.jaVotei)
  {
  }

  /** Every transition keeps the coherence of the state record. */
  lemma TransitionsKeepCoherent(s: Snapshot, w: Wallet, networks: map<nat, Address>, e: Eleicao,
                                failsAt: Option<ReadStep>, accounts: seq<Account>, ok1: bool, ok2: bool)
    requires Coherent(s)
    ensures Coherent(AfterLoad(s, LoadResult(w, networks, e, failsAt)))
    ensures s.contrato.Some? ==> Coherent(OnAccountsChanged(s, accounts, e, ok1))
    ensures Coherent(OnVote(s, ok1, e, ok2))
  {
  }

  /** The component: its state record plus the account-change subscription. */
  class App {
    var carregando: bool
    var candidatos: seq<Candidate>
    var conta: Option<Account>
    var contrato: Option<Address>
    var jaVotei: bool
    /** Whether the `accountsChanged` handler is registered with the injected provider. */
    var subscribed: bool

    /** The state record as a value. */
    function State(): Snapshot
      reads this
    {
      Snapshot(carregando, candidatos, conta, contrato, jaVotei)
    }

    ghost predicate Valid()
      reads this
    {
      Coherent(State()) && (subscribed ==> contrato.Some?)
    }

    constructor ()
      ensures Valid() && State() == Initial && !subscribed
    {
      carregando, candidatos, conta, contrato, jaVotei := true, [], None, None, false;
      subscribed := false;
    }

    /**
     * `componentDidMount`. Each early return leaves the state untouched; the
     * one `setState` happens only after every read succeeded. With the legacy
     * provider the state is committed but `window.ethereum.on` then throws, so
     * no account-change handler is registered.
     */
    method Load(w: Wallet, networks: map<nat, Address>, e: Eleicao, failsAt: Option<ReadStep>)
      returns (outcome: Result<Loaded, LoadError>)
      requires Valid()
      modifies this
      ensures Valid()
      ensures outcome == LoadResult(w, networks, e, failsAt)
      ensures State() == AfterLoad(old(State()), outcome)
      ensures subscribed == (old(subscribed) || (outcome.Success? && w.provider.Injected?))
    {
      if w.provider.Absent? {
        return Failure(NoProvider);
      }
      if w.provider == Injected(false) {
        return Failure(EnableRejected);
      }
      if Throws(failsAt, AccountsRead) {
        return Failure(ReadThrew(AccountsRead));
      }
      if |w.contas| == 0 {
        return Failure(NoAccount);
      }
      var c := w.contas[0];
      if Throws(failsAt, BalanceRead) {
        return Failure(ReadThrew(BalanceRead));
      }
      if Throws(failsAt, NetworkIdRead) {
        return Failure(ReadThrew(NetworkIdRead));
      }
      if w.redeId !in networks {
        return Failure(NotDeployed);
      }
      var address := networks[w.redeId];
      if Throws(failsAt, CountRead) {
        return Failure(ReadThrew(CountRead));
      }
      var lista, issued := ReadCandidates(e, failsAt);
      if lista.Failure? {
        return Failure(ReadThrew(lista.error));
      }
      if Throws(failsAt, VotedRead) {
        return Failure(ReadThrew(VotedRead));
      }
      var voted := e.HasVoted(c);
      carregando, candidatos, contrato, conta, jaVotei := false, lista.value, Some(address), Some(c), voted;
      outcome := Success(Loaded(address, c, lista.value, voted));
      if w.provider.Injected? {
        subscribed := true;
      }
    }

    /**
     * The `accountsChanged` handler registered by `Load`. An empty account
     * list makes the flag read reject, like any other failed read.
     */
    method AccountsChanged(accounts: seq<Account>, e: Eleicao, readOk: bool)
      requires Valid() && subscribed
      modifies this
      ensures Valid() && subscribed
      ensures State() == OnAccountsChanged(old(State()), accounts, e, readOk)
    {
      if |accounts| > 0 && readOk {
        var c := accounts[0];
        var voted := e.HasVoted(c);
        conta, jaVotei := Some(c), voted;
      }
    }

    /**
     * `votar`. The candidate id and the voted flag are not checked locally.
     * `sent` is the transaction handed to the wallet; there is none when no
     * contract handle exists yet (the call then throws inside the `try`).
     */
    method Vote(id: nat, sendOk: bool, e: Eleicao, rereadOk: bool) returns (sent: Option<VoteTx>)
      requires Valid()
      modifies this`carregando, this`jaVotei
      ensures Valid() && subscribed == old(subscribed)
      ensures State() == OnVote(old(State()), sendOk, e, rereadOk)
      ensures sent == if old(contrato).Some? then Some(VoteTx(id, old(conta).value)) else None
    {
      var from := conta;
      carregando := true;
      if contrato.None? {
        sent := None;
        carregando := false;
        return;
      }
      sent := Some(VoteTx(id, from.value));
      if sendOk && rereadOk {
        var voted := e.HasVoted(from.value);
        carregando, jaVotei := false, voted;
      } else {
        carregando := false;
      }
    }
  }
}
