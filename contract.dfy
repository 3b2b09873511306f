/**
 * The election contract as the client sees it: a value reachable only through
 * its public getters `contagemDeCandidatos()`, `candidatos(id)` and
 * `eleitores(conta)`, and the candidate-read loop of the mount-time load.
 */
module Contract {
  import opened Wrappers

  /** An externally owned account, as reported by the wallet. */
  type Account = string

  /** The address of a contract deployment. */
  type Address = string

  /** One ballot entry, as returned by the getter `candidatos(id)`. */
  datatype Candidate = Candidate(id: nat, nome: string)

  /**
   * The observable state of one deployed election contract: the reported
   * candidate count, the public candidate mapping and the voter mapping.
   */
  datatype Eleicao = Eleicao(
    contagemDeCandidatos: nat,
    candidatos: map<nat, Candidate>,
    eleitores: map<Account, bool>)
  {
    /** `candidatos(i)`: a mapping getter, so an id never stored reads as the zero record. */
    function CandidateAt(i: nat): Candidate
    {
      if i in candidatos then candidatos[i] else Candidate(0, "")
    }

    /** `eleitores(conta)`: an account that never voted reads as `false`. */
    function HasVoted(conta: Account): bool
    {
      conta in eleitores && eleitores[conta]
    }
  }

  /** The remote reads issued while loading, in the order the client issues them. */
  datatype ReadStep =
    | AccountsRead        // web3.eth.getAccounts()
    | BalanceRead         // web3.eth.getBalance(conta)
    | NetworkIdRead       // web3.eth.net.getId()
    | CountRead           // contagemDeCandidatos()
    | CandidateRead(id: nat)
    | VotedRead           // eleitores(conta)

  /**
   * `failsAt` names the first read that throws, if any. Reads run one after
   * another and the first exception aborts the sequence, so only the first
   * failing read matters.
   */
  predicate Throws(failsAt: Option<ReadStep>, step: ReadStep)
  {
    failsAt == Some(step)
  }

  /** The failing read is one of the candidate reads `1..n` that the loop actually issues. */
  predicate CandidateReadThrows(failsAt: Option<ReadStep>, n: nat)
  {
    failsAt.Some? && failsAt.value.CandidateRead? && 1 <= failsAt.value.id <= n
  }

  /** The candidates with ids `1..k`, in increasing id order. */
  function Ballot(e: Eleicao, k: nat): seq<Candidate>
  {
    if k == 0 then [] else Ballot(e, k - 1) + [e.CandidateAt(k)]
  }

  /** The ids `1..k`, in the order the loop reads them. */
  function Ids(k: nat): seq<nat>
  {
    if k == 0 then [] else Ids(k - 1) + [k]
  }

  /** Position `j` of the ballot holds the candidate read with id `j + 1`. */
  lemma {:induction false} BallotAt(e: Eleicao, k: nat)
    ensures |Ballot(e, k)| == k
    ensures forall j :: 0 <= j < k ==> Ballot(e, k)[j] == e.CandidateAt(j + 1)
  {
    if k > 0 {
      BallotAt(e, k - 1);
    }
  }

  /** `Ids(k)` is exactly `1, 2, ..., k`: one id per read, strictly increasing. */
  lemma {:induction false} IdsAt(k: nat)
    ensures |Ids(k)| == k
    ensures forall j :: 0 <= j < k ==> Ids(k)[j] == j + 1
    ensures forall i, j :: 0 <= i < j < k ==> Ids(k)[i] < Ids(k)[j]
  {
    if k > 0 {
      IdsAt(k - 1);
    }
  }

  /**
   * The candidate loop of the mount-time load: read `contagemDeCandidatos`
   * candidates by id, starting at 1, pushing each onto the list. A thrown read
   * aborts the loop and no list is returned. `issued` is the ids read so far,
   * including the one that threw.
   */
  method ReadCandidates(e: Eleicao, failsAt: Option<ReadStep>)
    returns (r: Result<seq<Candidate>, ReadStep>, issued: seq<nat>)
    ensures r.Failure? <==> CandidateReadThrows(failsAt, e.contagemDeCandidatos)
    ensures r.Failure? ==> r.error == failsAt.value && issued == Ids(failsAt.value.id)
    ensures r.Success? ==> issued == Ids(e.contagemDeCandidatos) && r.value == Ballot(e, e.contagemDeCandidatos)
    ensures r.Success? ==> |r.value| == e.contagemDeCandidatos
    ensures r.Success? ==> forall j :: 0 <= j < |r.value| ==> r.value[j] == e.CandidateAt(j + 1)
  {
    var n := e.contagemDeCandidatos;
    var candidatos: seq<Candidate> := [];
    issued := [];
    var i := 1;
    while i <= n
      invariant 1 <= i <= n + 1
      invariant candidatos == Ballot(e, i - 1)
      invariant issued == Ids(i - 1)
      invariant !CandidateReadThrows(failsAt, i - 1)
    {
      issued := issued + [i];
      if Throws(failsAt, CandidateRead(i)) {
        r := Failure(CandidateRead(i));
        return;
      }
      candidatos := candidatos + [e.CandidateAt(i)];
      i := i + 1;
    }
    BallotAt(e, n);
    r := Success(candidatos);
  }
}
