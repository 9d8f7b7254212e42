/** What activating, refreshing and releasing do to a license's slots: when each goes through, and exactly which row it
    changes. */
module ActivationEffects {
  import opened Basics
  import opened ActivationSlots

  /** Only this row is new or different. */
  predicate OnlyChanges(before: map<ActivationId, Activation>, after: map<ActivationId, Activation>, id: ActivationId) {
    && after.Keys == before.Keys + {id}
    && forall jd :: jd in before && jd != id ==> after[jd] == before[jd]
  }

  /** The row is given up at `now`, and keeps its Mac, its token and its revision. */
  predicate GivenUp(before: Activation, after: Activation, now: Time) {
    && after.state == Deactivated && after.deactivatedAt == Some(now)
    && after.installation == before.installation && after.token == before.token && after.revision == before.revision
  }

  /** One slot is free that was not. */
  ghost predicate Frees(before: map<ActivationId, Activation>, after: map<ActivationId, Activation>, id: ActivationId) {
    && ActiveIds(after) == ActiveIds(before) - {id} && |ActiveIds(after)| + 1 == |ActiveIds(before)|
  }

  // ----- the management page -----

  /** Releasing an active row that nobody has locked gives it up and nothing else, and whoever was looking for a free
      slot then finds one. */
  lemma ManagedReleaseFrees(w: World, id: ActivationId, now: Time)
    requires Inv(w) && w.rowLock != Some(id) && id in w.rows && w.rows[id].state == Active
    ensures Enabled(w, DeactivateManaged(id, now))
    ensures var after := Next(w, DeactivateManaged(id, now));
            && OnlyChanges(w.rows, after.rows, id) && GivenUp(w.rows[id], after.rows[id], now)
            && Frees(w.rows, after.rows, id)
            && after == w.(rows := after.rows)
            && forall tx :: tx in w.transactions && w.transactions[tx].ActivateFound? ==>
                 Enabled(after, CountActive(tx))
  {
    var after := Next(w, DeactivateManaged(id, now));
    assert ActiveIds(after.rows) == ActiveIds(w.rows) - {id};
    assert id in ActiveIds(w.rows);
    hide Inv;
  }

  /** Any other row, a missing one or one that is not active, is left as it is. */
  lemma ManagedReleaseIsIdempotent(w: World, id: ActivationId, now: Time, later: Time)
    requires w.rowLock != Some(id)
    ensures var once := Next(w, DeactivateManaged(id, now));
            && Enabled(once, DeactivateManaged(id, later)) && Next(once, DeactivateManaged(id, later)) == once
    ensures id !in ActiveIds(w.rows) ==> Next(w, DeactivateManaged(id, now)) == w
  {
  }

  // ----- between a write and its commit -----

  predicate SameRow(before: map<ActivationId, Activation>, after: map<ActivationId, Activation>, id: ActivationId) {
    (id in before <==> id in after) && (id in before ==> before[id] == after[id])
  }

  /** Until it ends, nobody changes what a transaction has written, or the row it wrote over. */
  lemma {:induction false} WrittenStays(run: seq<World>, i: nat, j: nat, tx: TxId)
    requires Run(run) && i <= j < |run| && tx in run[i].transactions && run[i].transactions[tx].Written?
    requires forall m :: i <= m <= j ==> tx in run[m].transactions
    ensures run[j].transactions[tx] == run[i].transactions[tx]
    ensures SameRow(run[i].rows, run[j].rows, run[i].transactions[tx].id)
    decreases j
  {
    hide Inv, SameRow, Enabled, Next, Init;
    RowIsItself(run[i].rows, run[i].transactions[tx].id);
    if i < j {
      WrittenStays(run, i, j - 1, tx);
      RunKeepsInv(run, j - 1);
      assert Step(run[j - 1], run[j]);
      var s :| Enabled(run[j - 1], s) && run[j] == Next(run[j - 1], s);
      StatementKeepsWritten(run[j - 1], s, tx);
      RowsChain(run[i].rows, run[j - 1].rows, run[j].rows, run[i].transactions[tx].id);
    }
  }

  lemma RowIsItself(rows: map<ActivationId, Activation>, id: ActivationId)
    ensures SameRow(rows, rows, id)
  {
  }

  lemma RowsChain(a: map<ActivationId, Activation>, b: map<ActivationId, Activation>, c: map<ActivationId, Activation>,
                  id: ActivationId)
    requires SameRow(a, b, id) && SameRow(b, c, id)
    ensures SameRow(a, c, id)
  {
  }

  lemma StatementKeepsWritten(w: World, s: Statement, tx: TxId)
    requires Inv(w) && Enabled(w, s) && tx in w.transactions && w.transactions[tx].Written?
    requires tx in Next(w, s).transactions
    ensures Next(w, s).transactions[tx] == w.transactions[tx]
    ensures SameRow(w.rows, Next(w, s).rows, w.transactions[tx].id)
  {
    hide Fits, ActiveIds, RowConstraints, IssuedInv, FoundStands, Absent;
    assert TransactionInv(w, tx);
  }

  /** A Mac that gives up its own slot has given it up when its transaction commits, whatever ran in between. */
  lemma OwnReleaseFrees(run: seq<World>, i: nat, j: nat, tx: TxId, now: Time)
    requires Run(run) && i < j && j + 1 < |run|
    requires Enabled(run[i], WriteByToken(tx, now)) && run[i + 1] == Next(run[i], WriteByToken(tx, now))
    requires forall m :: i < m <= j ==> tx in run[m].transactions
    requires run[j].transactions[tx].Written? && run[j + 1] == Next(run[j], Statement.Commit(tx))
    requires !run[i].transactions[tx].refreshing && run[i].transactions[tx].read.state == Active
    ensures var id, before, after := run[i].transactions[tx].id, run[j], run[j + 1];
            && HasToken(before.rows, id, run[i].transactions[tx].token)
            && OnlyChanges(before.rows, after.rows, id) && GivenUp(before.rows[id], after.rows[id], now)
            && Frees(before.rows, after.rows, id)
            && after.licenseLock.None? && after.rowLock.None? && after.issued == before.issued
  {
    var t := run[i].transactions[tx];
    RunKeepsInv(run, i);
    assert TransactionInv(run[i], tx);
    assert run[i + 1].transactions[tx] == Written(t.id, t.read.(state := Deactivated, deactivatedAt := Some(now)),
                                                  None);
    WrittenStays(run, i + 1, j, tx);
    CommittedRelease(run[j], tx, t.id, t.read, now);
  }

  lemma CommittedRelease(w: World, tx: TxId, id: ActivationId, read: Activation, now: Time)
    requires id in w.rows && w.rows[id] == read && read.state == Active && tx in w.transactions
    requires w.transactions[tx] == Written(id, read.(state := Deactivated, deactivatedAt := Some(now)), None)
    ensures var after := Next(w, Statement.Commit(tx));
            && OnlyChanges(w.rows, after.rows, id) && GivenUp(w.rows[id], after.rows[id], now)
            && Frees(w.rows, after.rows, id)
            && after.licenseLock.None? && after.rowLock.None? && after.issued == w.issued
  {
    var after := Next(w, Statement.Commit(tx));
    assert ActiveIds(after.rows) == ActiveIds(w.rows) - {id};
    assert id in ActiveIds(w.rows);
  }

  // ----- whole requests -----

  /** The statements one after the other, unless one cannot be executed. */
  ghost function Execute(w: World, statements: seq<Statement>): Option<World>
    decreases |statements|
  {
    if statements == [] then Some(w)
    else if !Enabled(w, statements[0]) then None
    else Execute(Next(w, statements[0]), statements[1..])
  }

  function Activating(tx: TxId, installation: Installation, id: ActivationId, newToken: Token): seq<Statement> {
    [LockForActivation(tx, installation), FindActivation(tx, id)]
    + ([CountActive(tx), WriteActivation(tx, newToken)] + [Statement.Commit(tx)])
  }

  function ByToken(tx: TxId, token: Token, refreshing: bool, now: Time): seq<Statement> {
    [SeeToken(tx, token, refreshing), LockTokenLicense(tx), LockTokenRow(tx)]
    + ([WriteByToken(tx, now)] + [Statement.Commit(tx)])
  }

  /** The row an activation is about: the installation's own, or a fresh one. */
  ghost predicate RowFor(rows: map<ActivationId, Activation>, id: ActivationId, installation: Installation) {
    SameInstallation(rows, id, installation) || Absent(rows, id, installation)
  }

  lemma ExecuteOne(w: World, s: Statement, rest: seq<Statement>)
    ensures Execute(w, [s] + rest) == if Enabled(w, s) then Execute(Next(w, s), rest) else None
  {
    assert ([s] + rest)[1..] == rest;
  }

  /** The world in which only this transaction holds the license, having come so far. */
  function Holding(w: World, tx: TxId, t: Transaction): World {
    w.(licenseLock := Some(tx), transactions := w.transactions[tx := t])
  }

  /** The world a lone transaction on `id` leaves when it commits this row. */
  function Left(w: World, id: ActivationId, row: Activation, answer: Option<Entitlement>): World {
    w.(rows := w.rows[id := row], issued := if answer.Some? then w.issued + [answer.value] else w.issued)
  }

  lemma CommitLeaves(w: World, tx: TxId, id: ActivationId, row: Activation, answer: Option<Entitlement>)
    requires w.licenseLock.None? && w.rowLock.None? && tx !in w.transactions
    ensures var written := Holding(w, tx, Written(id, row, answer)).(rowLock := Some(id));
            Execute(written, [Statement.Commit(tx)]) == Some(Left(w, id, row, answer))
  {
    var written := Holding(w, tx, Written(id, row, answer)).(rowLock := Some(id));
    assert [Statement.Commit(tx)] == [Statement.Commit(tx)] + [];
    ExecuteOne(written, Statement.Commit(tx), []);
    assert written.transactions - {tx} == w.transactions;
  }

  lemma FreeLicense(w: World)
    requires Inv(w) && w.licenseLock.None?
    ensures w.rowLock.None? && forall id :: id in w.rows ==> w.rows[id].revision <= MAX_INT64
  {
  }

  lemma FindsRow(w: World, tx: TxId, installation: Installation, id: ActivationId, rest: seq<Statement>)
    requires Inv(w) && w.licenseLock.None? && tx !in w.transactions && RowFor(w.rows, id, installation)
    ensures Execute(w, [LockForActivation(tx, installation), FindActivation(tx, id)] + rest)
            == Execute(Holding(w, tx, ActivateFound(installation, id,
                                                    if id in w.rows then Some(w.rows[id]) else None)), rest)
  {
    var s := [LockForActivation(tx, installation), FindActivation(tx, id)];
    assert s + rest == [s[0]] + ([s[1]] + rest);
    ExecuteOne(w, s[0], [s[1]] + rest);
    var locked := Holding(w, tx, ActivateLocked(installation));
    ExecuteOne(locked, s[1], rest);
    hide Inv, Execute;
    assert Next(w, s[0]) == locked;
    assert Next(locked, s[1]).transactions
           == w.transactions[tx := ActivateFound(installation, id, if id in w.rows then Some(w.rows[id]) else None)];
  }

  lemma WritesRow(w: World, tx: TxId, t: Transaction, newToken: Token, rest: seq<Statement>)
    requires t.ActivateFound? && newToken !in w.tokens
    ensures var revision := if t.found.Some? then t.found.value.revision + 1 else 1;
            var row := Activation(t.installation, newToken, Active, None, revision);
            var answer := Some(Entitlement(t.id, revision, newToken, false));
            Execute(Holding(w, tx, t), [CountActive(tx), WriteActivation(tx, newToken)] + rest)
            == if && ((t.found.Some? && t.found.value.state == Active) || |ActiveIds(w.rows)| < 2)
                  && (t.found.Some? ==> t.found.value.revision != MAX_INT64)
               then Execute(Holding(w, tx, Written(t.id, row, answer)).(rowLock := Some(t.id),
                                                                        tokens := w.tokens + {newToken}), rest)
               else None
  {
    var s := [CountActive(tx), WriteActivation(tx, newToken)];
    assert s + rest == [s[0]] + ([s[1]] + rest);
    ExecuteOne(Holding(w, tx, t), s[0], [s[1]] + rest);
    var allowed := Holding(w, tx, ActivateAllowed(t.installation, t.id, t.found));
    ExecuteOne(allowed, s[1], rest);
    hide Execute, ActiveIds;
    if Enabled(Holding(w, tx, t), s[0]) {
      assert Next(Holding(w, tx, t), s[0]).transactions == allowed.transactions;
      if Enabled(allowed, s[1]) {
        var revision := if t.found.Some? then t.found.value.revision + 1 else 1;
        var row := Activation(t.installation, newToken, Active, None, revision);
        assert Next(allowed, s[1]).transactions
               == w.transactions[tx := Written(t.id, row, Some(Entitlement(t.id, revision, newToken, false)))];
      }
    }
  }

  /** Activating a Mac succeeds exactly when it is active already or fewer than two are, and its revision is not
      exhausted. Then exactly its row is active with the new token, at the next revision, and that is what is
      returned. */
  lemma ActivatesIff(w: World, tx: TxId, installation: Installation, id: ActivationId, newToken: Token)
    requires Inv(w) && w.licenseLock.None? && tx !in w.transactions && newToken !in w.tokens
    requires RowFor(w.rows, id, installation)
    ensures var r := Execute(w, Activating(tx, installation, id, newToken));
            && (r.Some? <==>
                  && (id in ActiveIds(w.rows) || |ActiveIds(w.rows)| < 2)
                  && (id in w.rows ==> w.rows[id].revision < MAX_INT64))
            && (r.Some? ==>
                  var after := r.value;
                  && OnlyChanges(w.rows, after.rows, id) && ActiveIds(after.rows) == ActiveIds(w.rows) + {id}
                  && after.rows[id].installation == installation && after.rows[id].token == newToken
                  && after.rows[id].deactivatedAt.None?
                  && after.rows[id].revision == (if id in w.rows then w.rows[id].revision + 1 else 1)
                  && after.issued == w.issued + [Entitlement(id, after.rows[id].revision, newToken, false)]
                  && after.licenseLock.None? && after.rowLock.None? && after.transactions == w.transactions)
  {
    FreeLicense(w);
    hide Inv, Execute, Activating, ActiveIds, OnlyChanges;
    ActivationLeaves(w, tx, installation, id, newToken);
    var revision := if id in w.rows then w.rows[id].revision + 1 else 1;
    var row := Activation(installation, newToken, Active, None, revision);
    TakenRow(w.rows, id, row);
  }

  lemma TakenRow(rows: map<ActivationId, Activation>, id: ActivationId, row: Activation)
    requires row.state == Active
    ensures OnlyChanges(rows, rows[id := row], id) && ActiveIds(rows[id := row]) == ActiveIds(rows) + {id}
    ensures id in ActiveIds(rows) <==> id in rows && rows[id].state == Active
  {
    assert ActiveIds(rows[id := row]) == ActiveIds(rows) + {id};
  }

  lemma ActivationLeaves(w: World, tx: TxId, installation: Installation, id: ActivationId, newToken: Token)
    requires Inv(w) && w.licenseLock.None? && tx !in w.transactions && newToken !in w.tokens
    requires RowFor(w.rows, id, installation)
    ensures var found := if id in w.rows then Some(w.rows[id]) else None;
            var revision := if found.Some? then found.value.revision + 1 else 1;
            Execute(w, Activating(tx, installation, id, newToken))
            == if && ((found.Some? && found.value.state == Active) || |ActiveIds(w.rows)| < 2)
                  && (found.Some? ==> found.value.revision != MAX_INT64)
               then Some(Left(w.(tokens := w.tokens + {newToken}), id,
                              Activation(installation, newToken, Active, None, revision),
                              Some(Entitlement(id, revision, newToken, false))))
               else None
  {
    var found := if id in w.rows then Some(w.rows[id]) else None;
    var revision := if found.Some? then found.value.revision + 1 else 1;
    var known := w.(tokens := w.tokens + {newToken});
    var commit := [Statement.Commit(tx)];
    var writing := [CountActive(tx), WriteActivation(tx, newToken)] + commit;
    FreeLicense(w);
    hide Inv, Execute, RowFor, ActiveIds, Enabled, Next;
    FindsRow(w, tx, installation, id, writing);
    WritesRow(w, tx, ActivateFound(installation, id, found), newToken, commit);
    CommitLeaves(known, tx, id, Activation(installation, newToken, Active, None, revision),
                 Some(Entitlement(id, revision, newToken, false)));
  }

  /** The row a token belongs to is the only one. */
  lemma TokenRowIs(w: World, id: ActivationId, token: Token)
    requires RowConstraints(w.rows) && HasToken(w.rows, id, token)
    ensures TokenRow(w.rows, token) == id
  {
  }

  lemma LocksForToken(w: World, tx: TxId, id: ActivationId, token: Token, refreshing: bool, rest: seq<Statement>)
    requires w.licenseLock.None? && tx !in w.transactions && HasToken(w.rows, id, token)
    ensures Execute(w, [SeeToken(tx, token, refreshing), LockTokenLicense(tx)] + rest)
            == Execute(Holding(w, tx, TokenLicenseLocked(token, refreshing)), rest)
  {
    var see, lock := SeeToken(tx, token, refreshing), LockTokenLicense(tx);
    assert [see, lock] + rest == [see] + ([lock] + rest);
    ExecuteOne(w, see, [lock] + rest);
    var seen := With(w, tx, TokenSeen(token, refreshing));
    ExecuteOne(seen, lock, rest);
    hide Execute;
    assert Next(seen, lock).transactions == w.transactions[tx := TokenLicenseLocked(token, refreshing)];
  }

  lemma ReadsTokenRow(w: World, tx: TxId, id: ActivationId, token: Token, refreshing: bool, rest: seq<Statement>)
    requires Inv(w) && w.licenseLock.None? && tx !in w.transactions && HasToken(w.rows, id, token)
    ensures Execute(w, [SeeToken(tx, token, refreshing), LockTokenLicense(tx), LockTokenRow(tx)] + rest)
            == Execute(Holding(w, tx, TokenRowLocked(token, refreshing, id, w.rows[id])).(rowLock := Some(id)), rest)
  {
    TokenRowIs(w, id, token);
    hide Inv, RowConstraints;
    LocksForToken(w, tx, id, token, refreshing, [LockTokenRow(tx)] + rest);
    assert [SeeToken(tx, token, refreshing), LockTokenLicense(tx), LockTokenRow(tx)] + rest
           == [SeeToken(tx, token, refreshing), LockTokenLicense(tx)] + ([LockTokenRow(tx)] + rest);
    var locked := Holding(w, tx, TokenLicenseLocked(token, refreshing));
    ExecuteOne(locked, LockTokenRow(tx), rest);
    hide Execute, TokenRow;
    assert Next(locked, LockTokenRow(tx)).transactions
           == w.transactions[tx := TokenRowLocked(token, refreshing, id, w.rows[id])];
  }

  lemma WritesByToken(w: World, tx: TxId, t: Transaction, now: Time, rest: seq<Statement>)
    requires t.TokenRowLocked?
    ensures var read := t.read;
            var row := RowByToken(read, t.refreshing, now);
            var answer := if t.refreshing then Some(Entitlement(t.id, read.revision + 1, t.token, true)) else None;
            Execute(Holding(w, tx, t), [WriteByToken(tx, now)] + rest)
            == if t.refreshing ==> read.state == Active && read.revision != MAX_INT64
               then Execute(Holding(w, tx, Written(t.id, row, answer)), rest) else None
  {
    ExecuteOne(Holding(w, tx, t), WriteByToken(tx, now), rest);
    hide Execute;
    if Enabled(Holding(w, tx, t), WriteByToken(tx, now)) {
      var written := Next(Holding(w, tx, t), WriteByToken(tx, now)).transactions[tx];
      assert Next(Holding(w, tx, t), WriteByToken(tx, now)).transactions == w.transactions[tx := written];
    }
  }

  /** A token request on a row: it refreshes exactly when the row is active and its revision not exhausted, which only
      advances the revision; it always releases, which gives up an active row and leaves any other. */
  lemma ByTokenIff(w: World, tx: TxId, id: ActivationId, token: Token, refreshing: bool, now: Time)
    requires Inv(w) && w.licenseLock.None? && tx !in w.transactions && HasToken(w.rows, id, token)
    ensures var r := Execute(w, ByToken(tx, token, refreshing, now));
            && (r.Some? <==> refreshing ==> w.rows[id].state == Active && w.rows[id].revision < MAX_INT64)
            && (r.Some? ==>
                  var after := r.value;
                  && OnlyChanges(w.rows, after.rows, id)
                  && after.licenseLock.None? && after.rowLock.None? && after.transactions == w.transactions
                  && (if refreshing then
                        && after.rows[id] == w.rows[id].(revision := w.rows[id].revision + 1)
                        && ActiveIds(after.rows) == ActiveIds(w.rows)
                        && after.issued == w.issued + [Entitlement(id, w.rows[id].revision + 1, token, true)]
                      else if w.rows[id].state == Active then
                        && GivenUp(w.rows[id], after.rows[id], now) && Frees(w.rows, after.rows, id)
                        && after.issued == w.issued
                      else after.rows == w.rows && after.issued == w.issued))
  {
    FreeLicense(w);
    hide Inv, Execute, ByToken, ActiveIds;
    ByTokenLeaves(w, tx, id, token, refreshing, now);
    ReleasedRow(w.rows, id, RowByToken(w.rows[id], refreshing, now));
  }

  function RowByToken(read: Activation, refreshing: bool, now: Time): Activation {
    if refreshing then read.(revision := read.revision + 1)
    else if read.state == Active then read.(state := Deactivated, deactivatedAt := Some(now))
    else read
  }

  lemma ByTokenLeaves(w: World, tx: TxId, id: ActivationId, token: Token, refreshing: bool, now: Time)
    requires Inv(w) && w.licenseLock.None? && tx !in w.transactions && HasToken(w.rows, id, token)
    ensures var read := w.rows[id];
            var answer := if refreshing then Some(Entitlement(id, read.revision + 1, token, true)) else None;
            Execute(w, ByToken(tx, token, refreshing, now))
            == if refreshing ==> read.state == Active && read.revision != MAX_INT64
               then Some(Left(w, id, RowByToken(read, refreshing, now), answer)) else None
  {
    var read := w.rows[id];
    var answer := if refreshing then Some(Entitlement(id, read.revision + 1, token, true)) else None;
    var commit := [Statement.Commit(tx)];
    var writing := [WriteByToken(tx, now)] + commit;
    FreeLicense(w);
    hide Inv, Execute, Enabled, Next;
    ReadsTokenRow(w, tx, id, token, refreshing, writing);
    WritesByToken(w.(rowLock := Some(id)), tx, TokenRowLocked(token, refreshing, id, read), now, commit);
    CommitLeaves(w, tx, id, RowByToken(read, refreshing, now), answer);
  }

  lemma ReleasedRow(rows: map<ActivationId, Activation>, id: ActivationId, row: Activation)
    requires id in rows
    ensures rows[id].state == row.state ==> ActiveIds(rows[id := row]) == ActiveIds(rows)
    ensures rows[id].state == Active && row.state == Deactivated ==> Frees(rows, rows[id := row], id)
  {
    var after := rows[id := row];
    if rows[id].state == row.state {
      assert ActiveIds(after) == ActiveIds(rows);
    } else if rows[id].state == Active {
      assert ActiveIds(after) == ActiveIds(rows) - {id};
      assert id in ActiveIds(rows);
    }
  }

  /** A token that no row carries is refused. */
  lemma UnknownTokenIsRefused(w: World, tx: TxId, token: Token, refreshing: bool, now: Time)
    requires forall id :: !HasToken(w.rows, id, token)
    ensures Execute(w, ByToken(tx, token, refreshing, now)).None?
  {
    var s := ByToken(tx, token, refreshing, now);
    assert s[0] == SeeToken(tx, token, refreshing);
  }
}
