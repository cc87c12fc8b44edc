/** Refresh tokens that descend from one login form a single chain in which only the newest can be live. */
module TokenChains {
  import opened Wrappers
  import opened RefreshLedger
  import opened LedgerTransactions
  import opened LedgerRuns

  /** Where a token stands: the first token of its login, how many rotations after it, and the token
      it replaced. */
  datatype Lineage = Lineage(login: Hash, generation: nat, parent: Option<Hash>)

  /** The lineage of every token ever stored, deleted ones included. Tokens present before the history
      count as logins. */
  function Lineages(rows: Rows, events: seq<Event>): map<Hash, Lineage>
    decreases |events|
  {
    if events == [] then map h | h in Ever(rows) :: Lineage(h, 0, None)
    else
      var before := Lineages(rows, events[..|events| - 1]);
      var Event(op, outcome) := events[|events| - 1];
      if outcome == Completed(Issued) && op.Issue? then before[op.minted := Lineage(op.minted, 0, None)]
      else if outcome.Completed? && outcome.answer.Rotated? && op.Rotate? && op.hash in before
      then before[op.minted := Successor(before[op.hash], op.hash)]
      else before
  }

  function Successor(lineage: Lineage, h: Hash): Lineage {
    Lineage(lineage.login, lineage.generation + 1, Some(h))
  }

  ghost predicate SameHolder(rows: Rows, a: Hash, b: Hash) {
    && a in Ever(rows) && b in Ever(rows)
    && Ever(rows)[a].userId == Ever(rows)[b].userId
    && Ever(rows)[a].audience == Ever(rows)[b].audience
  }

  /** A token has the user and audience of its login, and replaces the token of the generation before. */
  ghost predicate IsLinked(rows: Rows, lineages: map<Hash, Lineage>, h: Hash)
    requires h in lineages
  {
    var Lineage(login, generation, parent) := lineages[h];
    && SameHolder(rows, login, h)
    && if parent.None? then generation == 0 && login == h
       else parent.value in lineages && lineages[h] == Successor(lineages[parent.value], parent.value)
  }

  /** Within a login there is one token per generation, and a token with a later one is revoked. */
  ghost predicate IsOrdered(rows: Rows, lineages: map<Hash, Lineage>, a: Hash, b: Hash)
    requires a in lineages && b in lineages
  {
    lineages[a].login == lineages[b].login ==>
      && (lineages[a].generation == lineages[b].generation ==> a == b)
      && (lineages[a].generation < lineages[b].generation ==> !Unrevoked(rows, a))
  }

  /** The tokens of each login are one chain: one token per generation, each but the first replacing
      the one before it, all for one user and one audience, and all but the newest revoked. */
  ghost predicate AreChains(rows: Rows, lineages: map<Hash, Lineage>) {
    && lineages.Keys == Ever(rows).Keys
    && (forall h {:trigger IsLinked(rows, lineages, h)} :: h in lineages ==> IsLinked(rows, lineages, h))
    && (forall a, b {:trigger IsOrdered(rows, lineages, a, b)} ::
          a in lineages && b in lineages ==> IsOrdered(rows, lineages, a, b))
  }

  lemma LinkSurvivesAdvance(rows: Rows, after: Rows, lineages: map<Hash, Lineage>, h: Hash)
    requires h in lineages && IsLinked(rows, lineages, h) && Advances(rows, after)
    ensures IsLinked(after, lineages, h)
  {
  }

  lemma OrderSurvivesAdvance(rows: Rows, after: Rows, lineages: map<Hash, Lineage>, a: Hash, b: Hash)
    requires a in lineages && b in lineages && IsOrdered(rows, lineages, a, b) && Advances(rows, after)
    requires lineages.Keys == Ever(rows).Keys
    ensures IsOrdered(after, lineages, a, b)
  {
  }

  lemma ChainsSurviveAdvance(rows: Rows, after: Rows, lineages: map<Hash, Lineage>)
    requires AreChains(rows, lineages) && Advances(rows, after) && Ever(after).Keys == Ever(rows).Keys
    ensures AreChains(after, lineages)
  {
    forall h | h in lineages ensures IsLinked(after, lineages, h) {
      LinkSurvivesAdvance(rows, after, lineages, h);
    }
    forall a, b | a in lineages && b in lineages ensures IsOrdered(after, lineages, a, b) {
      OrderSurvivesAdvance(rows, after, lineages, a, b);
    }
  }

  lemma ChainsSurviveIssue(rows: Rows, lineages: map<Hash, Lineage>, minted: Hash, token: Token)
    requires AreChains(rows, lineages) && minted !in Ever(rows)
    ensures AreChains(rows.(tokens := rows.tokens[minted := token]), lineages[minted := Lineage(minted, 0, None)])
  {
    var after := rows.(tokens := rows.tokens[minted := token]);
    var grown := lineages[minted := Lineage(minted, 0, None)];
    forall h | h in grown ensures IsLinked(after, grown, h) {
      assert h != minted ==> IsLinked(rows, lineages, h);
    }
    forall a, b | a in grown && b in grown ensures IsOrdered(after, grown, a, b) {
      if a in lineages && b in lineages {
        assert IsOrdered(rows, lineages, a, b);
      } else {
        assert a != minted ==> IsLinked(rows, lineages, a);
        assert b != minted ==> IsLinked(rows, lineages, b);
      }
    }
  }

  lemma ChainsSurviveRotation(rows: Rows, after: Rows, lineages: map<Hash, Lineage>, spent: Hash, minted: Hash)
    requires AreChains(rows, lineages) && Unrevoked(rows, spent) && minted !in Ever(rows)
    requires Advances(rows, after) && Ever(after).Keys == Ever(rows).Keys + {minted}
    requires !Unrevoked(after, spent) && SameHolder(after, spent, minted)
    ensures AreChains(after, lineages[minted := Successor(lineages[spent], spent)])
  {
    var grown := lineages[minted := Successor(lineages[spent], spent)];
    assert IsLinked(rows, lineages, spent);
    forall h | h in grown ensures IsLinked(after, grown, h) {
      assert h != minted ==> IsLinked(rows, lineages, h);
    }
    RotationKeepsOrder(rows, after, lineages, spent, minted);
  }

  lemma RotationKeepsOrder(rows: Rows, after: Rows, lineages: map<Hash, Lineage>, spent: Hash, minted: Hash)
    requires AreChains(rows, lineages) && Unrevoked(rows, spent) && minted !in Ever(rows)
    requires Advances(rows, after) && !Unrevoked(after, spent)
    ensures var grown := lineages[minted := Successor(lineages[spent], spent)];
            forall a, b :: a in grown && b in grown ==> IsOrdered(after, grown, a, b)
  {
    var grown := lineages[minted := Successor(lineages[spent], spent)];
    forall a, b | a in grown && b in grown ensures IsOrdered(after, grown, a, b) {
      if a in lineages && b in lineages {
        assert IsOrdered(rows, lineages, a, b);
      } else {
        // The presented token was live, so nothing of its login is newer than it.
        assert a != minted ==> IsOrdered(rows, lineages, spent, a) && IsOrdered(rows, lineages, a, spent);
        assert b != minted ==> IsOrdered(rows, lineages, spent, b) && IsOrdered(rows, lineages, b, spent);
      }
    }
  }

  lemma ChainsSurviveEvent(rows: Rows, here: Rows, lineages: map<Hash, Lineage>, event: Event)
    requires event.outcome.Completed? && AnswersAt(here, event) && AreChains(here, lineages)
    ensures var after := Apply(event.op, here).rows;
            if event.op.Issue? && event.outcome.answer.Issued?
            then AreChains(after, lineages[event.op.minted := Lineage(event.op.minted, 0, None)])
            else if event.op.Rotate? && event.outcome.answer.Rotated?
            then event.op.hash in lineages
                 && AreChains(after, lineages[event.op.minted := Successor(lineages[event.op.hash], event.op.hash)])
            else AreChains(after, lineages)
  {
    var op := event.op;
    ApplyAdvances(op, here);
    OnlyMintingAddsTokens(op, here);
    var after := Apply(op, here).rows;
    if op.Issue? && event.outcome.answer.Issued? {
      ChainsSurviveIssue(here, lineages, op.minted, after.tokens[op.minted]);
    } else if op.Rotate? && event.outcome.answer.Rotated? {
      ChainsSurviveRotation(here, after, lineages, op.hash, op.minted);
    } else {
      ChainsSurviveAdvance(here, after, lineages);
    }
  }

  lemma ChainsSurviveNext(rows: Rows, events: seq<Event>, i: nat)
    requires AnswersSerially(rows, events) && i < |events|
    requires AreChains(Serial(rows, events[..i]), Lineages(rows, events[..i]))
    ensures AreChains(Serial(rows, events[..i + 1]), Lineages(rows, events[..i + 1]))
  {
    assert events[..i + 1][..i] == events[..i];
    SerialOfLast(rows, events[..i + 1]);
    if events[i].outcome.Completed? {
      ChainsSurviveEvent(rows, Serial(rows, events[..i]), Lineages(rows, events[..i]), events[i]);
    }
  }

  /** The tokens descending from each login are one chain, at every point of any one-at-a-time history. */
  lemma {:induction false} HistoriesFormChains(rows: Rows, events: seq<Event>, n: nat)
    requires AnswersSerially(rows, events) && n <= |events|
    ensures AreChains(Serial(rows, events[..n]), Lineages(rows, events[..n]))
    decreases n
  {
    if n > 0 {
      HistoriesFormChains(rows, events, n - 1);
      ChainsSurviveNext(rows, events, n - 1);
    }
  }

  /** The tokens descending from each login are one chain, in every reachable state of the concurrent system. */
  lemma ReachableTokensFormChains(rows: Rows, acts: seq<Action>)
    requires Play(Quiet(rows), acts).Stepped?
    ensures var end := Play(Quiet(rows), acts); AreChains(end.state.rows, Lineages(rows, end.events))
  {
    InterleavingsAreSerial(Quiet(rows), acts);
    var events := Play(Quiet(rows), acts).events;
    HistoriesFormChains(rows, events, |events|);
    assert events[..|events|] == events;
  }

  /** At most one token of a login is unrevoked. */
  lemma OneLiveTokenPerLogin(rows: Rows, acts: seq<Action>, a: Hash, b: Hash)
    requires Play(Quiet(rows), acts).Stepped?
    requires var end := Play(Quiet(rows), acts);
             var lineages := Lineages(rows, end.events);
             && a in lineages && b in lineages && lineages[a].login == lineages[b].login
             && Unrevoked(end.state.rows, a) && Unrevoked(end.state.rows, b)
    ensures a == b
  {
    ReachableTokensFormChains(rows, acts);
    var end := Play(Quiet(rows), acts);
    var lineages := Lineages(rows, end.events);
    assert IsOrdered(end.state.rows, lineages, a, b) && IsOrdered(end.state.rows, lineages, b, a);
  }

  // ---------- revocation and succession over a history ----------

  ghost predicate IsRotationOf(event: Event, hash: Hash) {
    event.op.Rotate? && event.op.hash == hash && event.outcome.Completed? && event.outcome.answer.Rotated?
  }

  lemma AdvancesIsTransitive(a: Rows, b: Rows, c: Rows)
    requires Advances(a, b) && Advances(b, c)
    ensures Advances(a, c)
  {
  }

  lemma EventAdvances(rows: Rows, events: seq<Event>, i: nat)
    requires AnswersSerially(rows, events) && i < |events|
    ensures Advances(Serial(rows, events[..i]), Serial(rows, events[..i + 1]))
  {
    assert events[..i + 1][..i] == events[..i];
    SerialOfLast(rows, events[..i + 1]);
    if events[i].outcome.Completed? {
      assert AnswersAt(Serial(rows, events[..i]), events[i]);
      ApplyAdvances(events[i].op, Serial(rows, events[..i]));
    }
  }

  lemma AdvancesIsReflexive(a: Rows)
    ensures Advances(a, a)
  {
  }

  lemma {:induction false} PathsAdvance(path: seq<Rows>, i: nat, j: nat)
    requires i <= j < |path| && forall k :: 0 <= k < |path| - 1 ==> Advances(path[k], path[k + 1])
    ensures Advances(path[i], path[j])
    decreases j
  {
    AdvancesIsReflexive(path[i]);
    if i < j {
      PathsAdvance(path, i, j - 1);
      assert Advances(path[j - 1], path[j - 1 + 1]);
      AdvancesIsTransitive(path[i], path[j - 1], path[j]);
    }
  }

  /** The rows after each number of events. */
  function Path(rows: Rows, events: seq<Event>): seq<Rows> {
    seq(|events| + 1, n requires 0 <= n <= |events| => Serial(rows, events[..n]))
  }

  /** Along a history tokens never vanish, never change hands, and a revocation is never undone or re-dated. */
  lemma RevocationsAreFinal(rows: Rows, events: seq<Event>, i: nat, j: nat)
    requires AnswersSerially(rows, events) && i <= j <= |events|
    ensures Advances(Serial(rows, events[..i]), Serial(rows, events[..j]))
  {
    var path := Path(rows, events);
    forall k | 0 <= k < |path| - 1 ensures Advances(path[k], path[k + 1]) {
      EventAdvances(rows, events, k);
    }
    PathsAdvance(path, i, j);
  }

  /** A rotation spends a live token, which stays spent. */
  lemma EventSpends(rows: Rows, events: seq<Event>, i: nat, later: Rows, hash: Hash)
    requires AnswersSerially(rows, events) && i < |events| && IsRotationOf(events[i], hash)
    ensures Unrevoked(Serial(rows, events[..i]), hash)
    ensures Advances(Serial(rows, events[..i + 1]), later) ==> !Unrevoked(later, hash)
  {
    var here := Serial(rows, events[..i]);
    assert events[..i + 1][..i] == events[..i];
    SerialOfLast(rows, events[..i + 1]);
    assert AnswersAt(here, events[i]);
    if Advances(Apply(events[i].op, here).rows, later) {
      SpentStaysSpent(events[i].op, here, later);
    }
  }

  lemma LaterRotationFails(rows: Rows, events: seq<Event>, i: nat, j: nat, hash: Hash)
    requires AnswersSerially(rows, events) && i < j < |events| && IsRotationOf(events[i], hash)
    ensures !IsRotationOf(events[j], hash)
  {
    var there := Serial(rows, events[..j]);
    RevocationsAreFinal(rows, events, i + 1, j);
    EventSpends(rows, events, i, there, hash);
    if IsRotationOf(events[j], hash) {
      EventSpends(rows, events, j, there, hash);
    }
  }

  /** No token has two successors: of all rotations presenting it, at most one succeeds. */
  lemma NoTokenHasTwoSuccessors(rows: Rows, events: seq<Event>, i: nat, j: nat, hash: Hash)
    requires AnswersSerially(rows, events) && i < |events| && j < |events|
    requires IsRotationOf(events[i], hash) && IsRotationOf(events[j], hash)
    ensures i == j
  {
    if i < j {
      LaterRotationFails(rows, events, i, j, hash);
    } else if j < i {
      LaterRotationFails(rows, events, j, i, hash);
    }
  }

  lemma SpentStaysSpent(op: Op, rows: Rows, later: Rows)
    requires op.Rotate? && Fresh(op, rows) && Apply(op, rows).answer.Rotated?
    requires Advances(Apply(op, rows).rows, later)
    ensures !Unrevoked(later, op.hash)
  {
    assert op.hash in Ever(Apply(op, rows).rows);
  }

  /** A rotation would be granted if it ran alone on these rows. */
  predicate WouldRotate(rows: Rows, op: Op) {
    op.Rotate? && Apply(op, rows).answer.Rotated?
  }

  /** Any number of refreshes race for one live token: exactly one, the first to end, wins. */
  lemma {:induction false} RefreshRaceHasOneWinner(rows: Rows, events: seq<Event>, hash: Hash)
    requires AnswersSerially(rows, events) && |events| > 0
    requires forall i :: 0 <= i < |events| ==>
               && events[i].outcome.Completed? && events[i].op.Rotate? && events[i].op.hash == hash
               && WouldRotate(rows, events[i].op)
    ensures IsRotationOf(events[0], hash)
    ensures forall i :: 0 < i < |events| ==> events[i].outcome == Completed(RotateDenied)
  {
    assert events[..0] == [];
    assert AnswersAt(rows, events[0]);
    forall i | 0 < i < |events| ensures events[i].outcome == Completed(RotateDenied) {
      assert AnswersAt(Serial(rows, events[..i]), events[i]);
      if IsRotationOf(events[i], hash) {
        NoTokenHasTwoSuccessors(rows, events, 0, i, hash);
      }
    }
  }

  /** The race in the concurrent system: no request is aborted and nothing else runs. */
  lemma ConcurrentRefreshesHaveOneWinner(rows: Rows, acts: seq<Action>, hash: Hash)
    requires Play(Quiet(rows), acts).Stepped?
    requires var events := Play(Quiet(rows), acts).events;
             && |events| > 0
             && forall i :: 0 <= i < |events| ==>
                  && events[i].outcome.Completed? && events[i].op.Rotate? && events[i].op.hash == hash
                  && WouldRotate(rows, events[i].op)
    ensures var events := Play(Quiet(rows), acts).events;
            && IsRotationOf(events[0], hash)
            && forall i :: 0 < i < |events| ==> events[i].outcome == Completed(RotateDenied)
  {
    InterleavingsAreSerial(Quiet(rows), acts);
    RefreshRaceHasOneWinner(rows, Play(Quiet(rows), acts).events, hash);
  }
}
