/** Which sections `render` shows for a given state record. */
module View {
  import opened Wrappers
  import opened Contract
  import opened Client

  /**
   * The sections below the title: the loading banner, the candidate table
   * (its rows, one vote button per candidate), the "Já votei!" message and
   * the account line.
   */
  datatype Screen = Screen(loadingBanner: bool, table: Option<seq<Candidate>>, votedMessage: bool, accountLine: bool)

  /**
   * `render`. Its `candidatos &&` guard never fails, since the list is always
   * an array (empty arrays are truthy), so the table depends only on the two
   * flags.
   */
  function Render(s: Snapshot): (v: Screen)
    ensures v.loadingBanner <==> s.carregando
    ensures v.accountLine <==> !s.carregando
    ensures v.table.Some? ==> !s.carregando && !s.jaVotei && v.table.value == s.candidatos
    ensures v.votedMessage ==> !s.carregando && s.jaVotei
    ensures !(v.table.Some? && v.votedMessage)
    ensures !s.carregando ==> (v.table.Some? != v.votedMessage)
  {
    Screen(
      s.carregando,
      if !s.carregando && !s.jaVotei then Some(s.candidatos) else None,
      !s.carregando && s.jaVotei,
      !s.carregando)
  }

  /**
   * After a successful load the loading banner is gone and exactly one of the
   * table (with the candidates `1..n` in id order) and the voted message shows,
   * chosen by the flag of the loaded account.
   */
  lemma LoadedScreen(w: Wallet, networks: map<nat, Address>, e: Eleicao, failsAt: Option<ReadStep>)
    requires LoadResult(w, networks, e, failsAt).Success?
    ensures var v := Render(AfterLoad(Initial, LoadResult(w, networks, e, failsAt)));
      && !v.loadingBanner && v.accountLine
      && v.votedMessage == e.HasVoted(w.contas[0])
      && (v.table.Some? ==>
            && |v.table.value| == e.contagemDeCandidatos
            && forall j :: 0 <= j < e.contagemDeCandidatos ==> v.table.value[j] == e.CandidateAt(j + 1))
  {
    BallotAt(e, e.contagemDeCandidatos);
  }

  /** A load that fails leaves the loading banner up and shows nothing else. */
  lemma FailedLoadScreen(w: Wallet, networks: map<nat, Address>, e: Eleicao, failsAt: Option<ReadStep>)
    requires LoadResult(w, networks, e, failsAt).Failure?
    ensures Render(AfterLoad(Initial, LoadResult(w, networks, e, failsAt))) == Screen(true, None, false, false)
  {
  }

  /**
   * A vote that goes through and whose re-read reports `true` replaces the
   * table by the voted message; a vote that fails shows again exactly the
   * screen of the state before the click, so the user can retry.
   */
  lemma VoteScreen(s: Snapshot, sendOk: bool, e: Eleicao, rereadOk: bool)
    requires Coherent(s) && !s.carregando
    ensures s.contrato.Some? && sendOk && rereadOk && e.HasVoted(s.conta.value) ==>
      Render(OnVote(s, sendOk, e, rereadOk)).votedMessage && Render(OnVote(s, sendOk, e, rereadOk)).table.None?
    ensures !(sendOk && rereadOk) ==> Render(OnVote(s, sendOk, e, rereadOk)) == Render(s)
  {
  }

  /** Scenario: network 5777 is deployed, two candidates, the account has not voted. */
  lemma ScenarioLoadThenVote()
    ensures var networks := map[5777 := "0xE1"];
      var e := Eleicao(2, map[1 := Candidate(1, "Alice"), 2 := Candidate(2, "Bob")], map[]);
      var w := Wallet(Injected(true), ["0xA"], 5777);
      var s := AfterLoad(Initial, LoadResult(w, networks, e, None));
      var e' := e.(eleitores := map["0xA" := true]);
      && Render(s) == Screen(false, Some([Candidate(1, "Alice"), Candidate(2, "Bob")]), false, true)
      && Render(OnVote(s, true, e', true)) == Screen(false, None, true, true)
      && OnVote(s, false, e', true) == s
      && AfterLoad(Initial, LoadResult(w.(redeId := 1), networks, e, None)) == Initial
  {
    var e := Eleicao(2, map[1 := Candidate(1, "Alice"), 2 := Candidate(2, "Bob")], map[]);
    assert Ballot(e, 2) == [Candidate(1, "Alice"), Candidate(2, "Bob")] by {
      assert Ballot(e, 1) == [Candidate(1, "Alice")];
    }
  }
}
