# Election client state machine

A Dafny model of the `App` component of the blockchain voting tutorial
(`src/App.js`). The component keeps a small state record: `carregando` (loading),
`candidatos` (the ballot), `conta` (the active account), `contrato` (the contract
handle) and `jaVotei` (whether that account has voted). Three operations change it:

- the mount-time load (`componentDidMount`), which finds a provider, takes the
  first account, looks up the deployment for the network id, reads the candidate
  count, then the candidates `1..n` in order, then the account's voted flag, and
  commits everything in one `setState`;
- the `accountsChanged` handler, which re-reads only the voted flag for the new
  first account and commits `conta` and `jaVotei` together;
- `votar`, which sets the loading flag, sends the vote, re-reads the flag and
  clears the loading flag, keeping the old flag on any exception.

`render` chooses which sections to show from `carregando` and `jaVotei`.

Files:

- `wrappers.dfy`: `Option` and `Result`.
- `contract.dfy`: the contract as a value (`Eleicao`: candidate count, candidate
  mapping, voter mapping), the ballot and read-order specifications, and the
  candidate-read loop `ReadCandidates`.
- `client.dfy`: the state record `Snapshot`, pure transition functions
  (`LoadResult`, `AfterLoad`, `OnAccountsChanged`, `OnVote`), lemmas about them,
  and the class `App` whose methods update the fields in place and are proved
  against those functions.
- `view.dfy`: `Render`, the view-selection rule, and lemmas linking it to the
  transitions.

Remote calls are reduced to outcome parameters. `failsAt: Option<ReadStep>` names
the first read of the load that throws; reads are sequential and the first
exception aborts the load, so only the first failing read matters. A read that the
load never issues (for example `CandidateRead(0)`, or an id above the count) does
not fail. The contract's state at the moment of a read is a parameter, since the
contract's own rules are not part of this model.

Behaviour the source leaves implicit, and how the model resolves it:

- An empty account list is not checked by the code. `contas[0]` is then
  `undefined`, and the next call that uses it rejects: `getBalance` during the
  load, `eleitores` in the account-change handler. The model aborts the load with
  `NoAccount` and leaves the state unchanged on an account change.
- With only the legacy `window.web3` provider, the load commits its state. Then
  `window.ethereum.on` throws, because `window.ethereum` is undefined, so no
  account-change handler is ever registered. The field `subscribed` records
  whether the handler exists, and `AccountsChanged` requires it.
- A failed account-change read leaves both `conta` and `jaVotei` unchanged. The
  handler reports nothing, and the state is left as it was.
- `votar` before a contract handle exists throws inside its `try`. The catch
  then clears `carregando`. The model does the same and sends nothing.
- A missing candidate id reads as the zero record `(0, "")`, as a mapping getter
  returns it.

## Model

| member | source | states |
|---|---|---|
| Contract.ReadCandidates | src/App.js:70-74 | reads ids exactly `1..n` in increasing order, one read per id, and returns the candidates in that order; a read that throws aborts with no list, and the reads issued are then `1..f` for the failing id `f` |
| Contract.BallotAt | src/App.js:71-74 | the stored list has length `n`, and position `j` holds the candidate read with id `j + 1` |
| Contract.IdsAt | src/App.js:72 | the ids read are `1, 2, ..., k`, strictly increasing |
| Client.LoadResult | src/App.js:38-102 | the load sequence in the source's order; with no provider it fails with `NoProvider`; a success installs `contas[0]` with the flag read for that same account and the address registered for the network id |
| Client.OnAccountsChanged | src/App.js:90-97 | the handler keeps the list, the loading flag and the handle; when it changes anything, the read succeeded and it installs the new first account together with that account's flag |
| Client.OnVote | src/App.js:105-135 | `votar` always ends with `carregando` false and keeps list, account and handle; the flag changes only when both the send and the re-read succeeded, and then it is the current account's re-read flag |
| Client.LoadSucceedsIff | src/App.js:45-87 | the load commits iff a usable provider, an account and a deployment exist and no issued read throws; it then installs the deployment address, `contas[0]`, that account's flag and all `n` candidates in id order |
| Client.LoadAllOrNothing | src/App.js:38-102 | from the initial state a load leaves every field at its initial value or installs a complete state whose flag belongs to the installed account; with no provider, no deployment, or an issued read that throws, the state stays initial |
| Client.AccountsChangedKeepsPair | src/App.js:90-97 | an account change sets `conta` and `jaVotei` together from one read, or changes neither; list, loading flag and handle are untouched; account/flag agreement with the contract is kept |
| Client.VoteOutcome | src/App.js:105-135 | every vote ends with `carregando` false and list, account and handle unchanged; the flag becomes the re-read one for the current account only when both the send and the re-read succeed, and is otherwise unchanged |
| Client.TransitionsKeepCoherent | src/App.js:19-31 | load, account change and vote keep the state record coherent: account and handle are set together, and before that the list is empty and the flag false |
| Client.App.constructor | src/App.js:19-31 | the component starts loading, with an empty list, no account, no handle, the flag false and no handler |
| Client.App.Load | src/App.js:38-103 | performs the load sequence with early returns and returns exactly `LoadResult`; the state becomes `AfterLoad` of it; the handler is registered only after a commit with the injected provider |
| Client.App.AccountsChanged | src/App.js:90-98 | updates the fields exactly as `OnAccountsChanged` |
| Client.App.Vote | src/App.js:105-136 | updates the fields exactly as `OnVote`, hands the wallet the given id with the current account as sender without checking either, and sends nothing when no handle exists |
| View.Render | src/App.js:162-203 | the banner shows iff loading and the account line iff not; the table shows only when not loading and not voted, listing the stored candidates; the voted message only when not loading and voted; table and message never show together, and exactly one of them shows once loading is over |
| View.LoadedScreen | src/App.js:162-196 | after a successful load the banner is gone and the voted message shows iff the loaded account has voted; a shown table lists candidates `1..n` in id order |
| View.FailedLoadScreen | src/App.js:162-165 | after a failed load only the loading banner shows |
| View.VoteScreen | src/App.js:121-135 | a vote whose re-read reports `true` shows the voted message and no table; a failed vote shows the same screen as before the click |
| View.ScenarioLoadThenVote | src/App.js:38-136 | network 5777 with Alice and Bob loads into a two-row table; a successful vote then shows the voted message; a rejected vote changes nothing; an unknown network leaves the initial state |

## Left out

- Building the Web3 object, `window.ethereum.enable()` and the `Web3.givenProvider` fallback are foreign library calls. They become the `Provider` input; an `enable()` that is refused is `Injected(false)`.
- `getBalance` and `console.log` are diagnostic and do not change state. Only the possibility that `getBalance` throws is kept (`BalanceRead`).
- The contents of `Eleicao.json` (ABI and network registry) are not part of this model. The registry is the `networks` map from network id to address.
- The contract's vote-counting rules are left out. The contract's state when the flag is re-read after a vote is an input.
- Asynchronous interleaving of an in-flight `votar` with an `accountsChanged` event is left out; each operation is atomic. The transient `carregando = true` inside `votar` is set in `App.Vote` but is never visible between operations.
- Alerts, JSX markup, styling and the click wiring of the vote buttons are left out, beyond the boolean section choice and the listed rows.
- The JavaScript comparison of `i` with a count that may arrive as a string is left out; the count is a `nat`.
- The state field `candidato_id` is never read or written after initialisation, so it is not modelled.
- A rejected promise from the load is left out as an error report: the load only returns its `LoadError`.
