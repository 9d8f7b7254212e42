/** internal/activation: the two-slot cap and entitlement revisions of one license, statement by statement.
    Activate, RefreshEntitlement and DeactivateCurrent hold the license row's lock to their end; DeactivateManaged
    is one statement that does not take it. Plain reads see committed rows only, and a transaction's write is
    seen by others when it commits. */
module ActivationSlots {
  import opened Basics

  type TxId = nat
  type ActivationId = nat
  type Installation = nat
  type Token = nat

  const MAXIMUM_ACTIVATIONS: nat := 2
  const MAX_INT64: int := 0x7FFF_FFFF_FFFF_FFFF

  datatype ActivationState = Active | Deactivated

  datatype Activation = Activation(
    installation: Installation, token: Token, state: ActivationState, deactivatedAt: Option<Time>, revision: int)

  /** A transaction's progress. The row ID, what it read of the row, and what it wrote but has not committed. */
  datatype Transaction =
    | ActivateLocked(installation: Installation)
    | ActivateFound(installation: Installation, id: ActivationId, found: Option<Activation>)
    | ActivateAllowed(installation: Installation, id: ActivationId, found: Option<Activation>)
    | TokenSeen(token: Token, refreshing: bool)
    | TokenLicenseLocked(token: Token, refreshing: bool)
    | TokenRowLocked(token: Token, refreshing: bool, id: ActivationId, read: Activation)
    | Written(id: ActivationId, row: Activation, answer: Option<Entitlement>)

  /** An entitlement to return: which activation, at which revision, and the token that may refresh it next. */
  datatype Entitlement = Entitlement(id: ActivationId, revision: int, token: Token, refreshed: bool)

  datatype World = World(
    rows: map<ActivationId, Activation>, licenseLock: Option<TxId>, rowLock: Option<ActivationId>,
    transactions: map<TxId, Transaction>, issued: seq<Entitlement>, tokens: set<Token>)

  ghost predicate Init(w: World) {
    w == World(map[], None, None, map[], [], {})
  }

  function ActiveIds(rows: map<ActivationId, Activation>): set<ActivationId> {
    set id | id in rows && rows[id].state == Active
  }

  predicate HoldsLicense(t: Transaction) {
    !t.TokenSeen?
  }

  // ----- statements -----

  datatype Statement =
    | LockForActivation(tx: TxId, installation: Installation)
    | FindActivation(tx: TxId, newId: ActivationId)
    | CountActive(tx: TxId)
    | WriteActivation(tx: TxId, newToken: Token)
    | SeeToken(tx: TxId, token: Token, refreshing: bool)
    | LockTokenLicense(tx: TxId)
    | LockTokenRow(tx: TxId)
    | WriteByToken(tx: TxId, now: Time)
    | Commit(tx: TxId)
    | Abort(tx: TxId)
    | DeactivateManaged(id: ActivationId, now: Time)

  predicate SameInstallation(rows: map<ActivationId, Activation>, id: ActivationId, installation: Installation) {
    id in rows && rows[id].installation == installation
  }

  predicate HasToken(rows: map<ActivationId, Activation>, id: ActivationId, token: Token) {
    id in rows && rows[id].token == token
  }

  /** Fresh IDs and tokens are random; which row a lookup finds is given with the statement. */
  ghost predicate Enabled(w: World, s: Statement) {
    match s
    case LockForActivation(tx, _) => tx !in w.transactions && w.licenseLock.None?
    case FindActivation(tx, newId) =>
      && tx in w.transactions && w.transactions[tx].ActivateLocked?
      && (SameInstallation(w.rows, newId, w.transactions[tx].installation)
          || (newId !in w.rows && forall id :: !SameInstallation(w.rows, id, w.transactions[tx].installation)))
    case CountActive(tx) =>
      && tx in w.transactions && w.transactions[tx].ActivateFound?
      && var found := w.transactions[tx].found;
         (found.Some? && found.value.state == Active) || |ActiveIds(w.rows)| < MAXIMUM_ACTIVATIONS
    case WriteActivation(tx, newToken) =>
      && tx in w.transactions && w.transactions[tx].ActivateAllowed? && newToken !in w.tokens
      && (w.transactions[tx].found.Some? ==> w.transactions[tx].found.value.revision != MAX_INT64)
    case SeeToken(tx, token, _) => tx !in w.transactions && exists id :: HasToken(w.rows, id, token)
    case LockTokenLicense(tx) => tx in w.transactions && w.transactions[tx].TokenSeen? && w.licenseLock.None?
    case LockTokenRow(tx) =>
      && tx in w.transactions && w.transactions[tx].TokenLicenseLocked?
      && exists id :: HasToken(w.rows, id, w.transactions[tx].token)
    case WriteByToken(tx, _) =>
      && tx in w.transactions && w.transactions[tx].TokenRowLocked?
      && (w.transactions[tx].refreshing ==>
            w.transactions[tx].read.state == Active && w.transactions[tx].read.revision != MAX_INT64)
    case Commit(tx) => tx in w.transactions && w.transactions[tx].Written?
    case Abort(tx) => tx in w.transactions
    case DeactivateManaged(id, _) => w.rowLock != Some(id)
  }

  ghost function With(w: World, tx: TxId, t: Transaction): World {
    w.(transactions := w.transactions[tx := t])
  }

  function Released(w: World, tx: TxId): World
    requires tx in w.transactions
  {
    var ended := w.(transactions := w.transactions - {tx});
    if HoldsLicense(w.transactions[tx]) then ended.(licenseLock := None, rowLock := None) else ended
  }

  ghost function TokenRow(rows: map<ActivationId, Activation>, token: Token): ActivationId
    requires exists id :: HasToken(rows, id, token)
  {
    var id :| HasToken(rows, id, token);
    id
  }

  ghost function Next(w: World, s: Statement): World
    requires Enabled(w, s)
  {
    match s
    case LockForActivation(tx, installation) => With(w, tx, ActivateLocked(installation)).(licenseLock := Some(tx))
    case FindActivation(tx, newId) =>
      var found := if newId in w.rows then Some(w.rows[newId]) else None;
      With(w, tx, ActivateFound(w.transactions[tx].installation, newId, found))
    case CountActive(tx) =>
      var t := w.transactions[tx];
      With(w, tx, ActivateAllowed(t.installation, t.id, t.found))
    case WriteActivation(tx, newToken) =>
      var t := w.transactions[tx];
      var revision := if t.found.Some? then t.found.value.revision + 1 else 1;
      var row := Activation(t.installation, newToken, Active, None, revision);
      With(w, tx, Written(t.id, row, Some(Entitlement(t.id, revision, newToken, false))))
        .(rowLock := Some(t.id), tokens := w.tokens + {newToken})
    case SeeToken(tx, token, refreshing) => With(w, tx, TokenSeen(token, refreshing))
    case LockTokenLicense(tx) =>
      var t := w.transactions[tx];
      With(w, tx, TokenLicenseLocked(t.token, t.refreshing)).(licenseLock := Some(tx))
    case LockTokenRow(tx) =>
      var t := w.transactions[tx];
      var id := TokenRow(w.rows, t.token);
      With(w, tx, TokenRowLocked(t.token, t.refreshing, id, w.rows[id])).(rowLock := Some(id))
    case WriteByToken(tx, now) =>
      var t := w.transactions[tx];
      if t.refreshing then
        var row := t.read.(revision := t.read.revision + 1);
        With(w, tx, Written(t.id, row, Some(Entitlement(t.id, row.revision, t.token, true))))
      else if t.read.state == Active then
        With(w, tx, Written(t.id, t.read.(state := Deactivated, deactivatedAt := Some(now)), None))
      else With(w, tx, Written(t.id, t.read, None))
    case Commit(tx) =>
      var t := w.transactions[tx];
      var committed := Released(w, tx).(rows := w.rows[t.id := t.row]);
      if t.answer.Some? then committed.(issued := w.issued + [t.answer.value]) else committed
    case Abort(tx) => Released(w, tx)
    case DeactivateManaged(id, now) =>
      if id in w.rows && w.rows[id].state == Active
      then w.(rows := w.rows[id := w.rows[id].(state := Deactivated, deactivatedAt := Some(now))])
      else w
  }

  // ----- the invariant -----

  /** The CHECK and UNIQUE constraints on `activations`. */
  ghost predicate RowConstraints(rows: map<ActivationId, Activation>) {
    && (forall id :: id in rows ==>
          0 < rows[id].revision <= MAX_INT64
          && (rows[id].state == Active <==> rows[id].deactivatedAt.None?))
    && (forall id, jd :: id in rows && jd in rows && rows[id].installation == rows[jd].installation ==> id == jd)
    && (forall id, jd :: id in rows && jd in rows && rows[id].token == rows[jd].token ==> id == jd)
  }

  /** Another active row still fits when `id` is active too. */
  predicate Fits(rows: map<ActivationId, Activation>, id: ActivationId) {
    |ActiveIds(rows) + {id}| <= MAXIMUM_ACTIVATIONS
  }

  /** What a transaction read is still true of the row, except that it may have been released meanwhile. */
  predicate ReadStands(rows: map<ActivationId, Activation>, id: ActivationId, read: Activation) {
    id in rows && (rows[id] == read || (read.state == Active
                                        && rows[id] == read.(state := Deactivated,
                                                             deactivatedAt := rows[id].deactivatedAt)))
  }

  ghost predicate Absent(rows: map<ActivationId, Activation>, id: ActivationId, installation: Installation) {
    id !in rows && forall jd :: !SameInstallation(rows, jd, installation)
  }

  ghost predicate FoundStands(rows: map<ActivationId, Activation>, installation: Installation, id: ActivationId,
                              found: Option<Activation>) {
    match found
    case None => Absent(rows, id, installation)
    case Some(read) => read.installation == installation && ReadStands(rows, id, read) && 0 < read.revision <= MAX_INT64
  }

  ghost predicate TransactionInv(w: World, tx: TxId)
    requires tx in w.transactions
  {
    match w.transactions[tx]
    case ActivateLocked(_) => w.rowLock.None?
    case ActivateFound(installation, id, found) =>
      && w.rowLock.None? && FoundStands(w.rows, installation, id, found)
      && (found.Some? && found.value.state == Active ==> Fits(w.rows, id))
    case ActivateAllowed(installation, id, found) =>
      w.rowLock.None? && FoundStands(w.rows, installation, id, found) && Fits(w.rows, id)
    case TokenSeen(token, _) => token in w.tokens
    case TokenLicenseLocked(token, _) => w.rowLock.None? && token in w.tokens
    case TokenRowLocked(token, _, id, read) =>
      w.rowLock == Some(id) && HasToken(w.rows, id, token) && w.rows[id] == read
    case Written(id, row, answer) =>
      && w.rowLock == Some(id)
      && (row.state == Active <==> row.deactivatedAt.None?) && 0 < row.revision <= MAX_INT64
      && (row.state == Active ==> Fits(w.rows, id))
      && (if id in w.rows then row.installation == w.rows[id].installation && row.revision >= w.rows[id].revision
          else Absent(w.rows, id, row.installation))
      && row.token in w.tokens
      && (forall jd :: HasToken(w.rows, jd, row.token) ==> jd == id)
      && (answer.Some? ==>
            && answer.value.id == id && answer.value.revision == row.revision && answer.value.token == row.token
            && (id in w.rows ==> row.revision > w.rows[id].revision)
            && (answer.value.refreshed ==> HasToken(w.rows, id, row.token) && w.rows[id].state == Active))
  }

  /** Revisions returned for an activation increase strictly, and the row is never behind them. */
  ghost predicate IssuedInv(w: World) {
    && (forall i :: 0 <= i < |w.issued| ==>
          w.issued[i].id in w.rows && w.issued[i].revision <= w.rows[w.issued[i].id].revision
                                            && w.issued[i].token in w.tokens)
    && (forall i, j :: 0 <= i < j < |w.issued| && w.issued[i].id == w.issued[j].id ==>
          w.issued[i].revision < w.issued[j].revision)
  }

  ghost predicate Inv(w: World) {
    && RowConstraints(w.rows)
    && |ActiveIds(w.rows)| <= MAXIMUM_ACTIVATIONS
    && (forall id :: id in w.rows ==> w.rows[id].token in w.tokens)
    && (forall tx :: tx in w.transactions ==>
          TransactionInv(w, tx) && (HoldsLicense(w.transactions[tx]) <==> w.licenseLock == Some(tx)))
    && (w.licenseLock.Some? ==> w.licenseLock.value in w.transactions)
    && (w.licenseLock.None? ==> w.rowLock.None?)
    && IssuedInv(w)
  }

  // ----- preservation -----

  lemma {:induction false} SubsetSize<T>(a: set<T>, b: set<T>)
    requires a <= b
    ensures |a| <= |b|
  {
    if b <= a {
      assert a == b;
    } else {
      var x :| x in b && x !in a;
      SubsetSize(a, b - {x});
    }
  }

  lemma AllowedFits(rows: map<ActivationId, Activation>, id: ActivationId)
    requires |ActiveIds(rows)| <= MAXIMUM_ACTIVATIONS
    requires id in ActiveIds(rows) || |ActiveIds(rows)| < MAXIMUM_ACTIVATIONS
    ensures Fits(rows, id)
  {
  }

  lemma WritingKeepsCap(rows: map<ActivationId, Activation>, id: ActivationId, row: Activation)
    requires |ActiveIds(rows)| <= MAXIMUM_ACTIVATIONS && (row.state == Active ==> Fits(rows, id))
    ensures |ActiveIds(rows[id := row])| <= MAXIMUM_ACTIVATIONS
  {
    if row.state == Active {
      assert ActiveIds(rows[id := row]) == ActiveIds(rows) + {id};
    } else {
      SubsetSize(ActiveIds(rows[id := row]), ActiveIds(rows));
    }
  }

  /** Releasing a slot without the license lock frees exactly that slot and makes room, whatever an activation has
      read before. */
  lemma ReleaseKeepsRoom(w: World, released: ActivationId, now: Time)
    requires Enabled(w, DeactivateManaged(released, now)) && released in ActiveIds(w.rows)
    ensures var after := Next(w, DeactivateManaged(released, now)).rows;
            && ActiveIds(after) == ActiveIds(w.rows) - {released}
            && |ActiveIds(after)| + 1 == |ActiveIds(w.rows)|
            && (forall id :: Fits(w.rows, id) ==> Fits(after, id))
  {
    var after := Next(w, DeactivateManaged(released, now)).rows;
    assert ActiveIds(after) == ActiveIds(w.rows) - {released};
    forall id | Fits(w.rows, id) ensures Fits(after, id) {
      SubsetSize(ActiveIds(after) + {id}, ActiveIds(w.rows) + {id});
    }
  }

  /** What a transaction has read or is about to write survives another's release of a slot. */
  lemma ReleaseKeepsTransaction(w: World, id: ActivationId, now: Time, tx: TxId)
    requires tx in w.transactions && TransactionInv(w, tx) && id in w.rows && w.rows[id].state == Active
             && w.rowLock != Some(id)
    requires forall jd :: Fits(w.rows, jd) ==>
               Fits(w.rows[id := w.rows[id].(state := Deactivated, deactivatedAt := Some(now))], jd)
    ensures TransactionInv(w.(rows := w.rows[id := w.rows[id].(state := Deactivated, deactivatedAt := Some(now))]), tx)
  {
    hide Fits, ActiveIds;
    var rows := w.rows[id := w.rows[id].(state := Deactivated, deactivatedAt := Some(now))];
    forall jd, token | HasToken(rows, jd, token) ensures HasToken(w.rows, jd, token) {
    }
    forall jd, installation | SameInstallation(rows, jd, installation)
      ensures SameInstallation(w.rows, jd, installation)
    {
    }
  }

  lemma ReleaseKeepsInv(w: World, id: ActivationId, now: Time)
    requires Inv(w) && Enabled(w, DeactivateManaged(id, now))
    ensures Inv(Next(w, DeactivateManaged(id, now)))
    ensures id !in ActiveIds(Next(w, DeactivateManaged(id, now)).rows)
  {
    var w' := Next(w, DeactivateManaged(id, now));
    assert id !in ActiveIds(w'.rows);
    if id in ActiveIds(w.rows) {
      ReleaseKeepsRoom(w, id, now);
      hide Fits, ActiveIds, TransactionInv;
      forall tx | tx in w'.transactions ensures TransactionInv(w', tx) {
        ReleaseKeepsTransaction(w, id, now, tx);
      }
    }
  }

  lemma CommittedConstraints(rows: map<ActivationId, Activation>, id: ActivationId, row: Activation)
    requires RowConstraints(rows) && 0 < row.revision <= MAX_INT64 && (row.state == Active <==> row.deactivatedAt.None?)
    requires if id in rows then row.installation == rows[id].installation else Absent(rows, id, row.installation)
    requires forall jd :: HasToken(rows, jd, row.token) ==> jd == id
    ensures RowConstraints(rows[id := row])
  {
    forall jd | jd in rows && jd != id
      ensures rows[jd].installation != row.installation && rows[jd].token != row.token
    {
      assert !HasToken(rows, jd, row.token);
      assert !SameInstallation(rows, jd, row.installation) || id in rows;
    }
  }

  lemma CommittedIssues(w: World, w': World, t: Transaction)
    requires IssuedInv(w) && t.Written? && w'.rows == w.rows[t.id := t.row] && w'.tokens == w.tokens
             && t.row.token in w.tokens
    requires t.id in w.rows ==> t.row.revision >= w.rows[t.id].revision
    requires t.answer.Some? ==> && t.answer.value.id == t.id && t.answer.value.revision == t.row.revision
                                && t.answer.value.token == t.row.token
                                   && (t.id in w.rows ==> t.row.revision > w.rows[t.id].revision)
    requires w'.issued == if t.answer.Some? then w.issued + [t.answer.value] else w.issued
    ensures IssuedInv(w')
  {
  }

  lemma CommitKeepsInv(w: World, tx: TxId)
    requires Inv(w) && Enabled(w, Statement.Commit(tx))
    ensures Inv(Next(w, Statement.Commit(tx)))
  {
    hide Fits, ActiveIds, RowConstraints, IssuedInv, FoundStands, Absent;
    var w' := Next(w, Statement.Commit(tx));
    var t := w.transactions[tx];
    assert TransactionInv(w, tx);
    WritingKeepsCap(w.rows, t.id, t.row);
    CommittedConstraints(w.rows, t.id, t.row);
    CommittedIssues(w, w', t);
    forall other | other in w'.transactions ensures TransactionInv(w', other) && w'.transactions[other].TokenSeen? {
      assert TransactionInv(w, other);
    }
  }

  lemma FindKeepsInv(w: World, tx: TxId, newId: ActivationId)
    requires Inv(w) && Enabled(w, FindActivation(tx, newId))
    ensures Inv(Next(w, FindActivation(tx, newId)))
  {
    var w' := Next(w, FindActivation(tx, newId));
    assert TransactionInv(w, tx);
    if newId in w.rows && w.rows[newId].state == Active {
      AllowedFits(w.rows, newId);
    }
    hide Fits, ActiveIds;
    assert TransactionInv(w', tx);
    OthersWait(w, w', tx);
  }

  lemma CountKeepsInv(w: World, tx: TxId)
    requires Inv(w) && Enabled(w, CountActive(tx))
    ensures Inv(Next(w, CountActive(tx)))
  {
    var w' := Next(w, CountActive(tx));
    assert TransactionInv(w, tx);
    var t := w.transactions[tx];
    if !(t.found.Some? && t.found.value.state == Active) {
      AllowedFits(w.rows, t.id);
    }
    hide Fits, ActiveIds;
    assert TransactionInv(w', tx);
    OthersWait(w, w', tx);
  }

  /** While one transaction holds the license, every other is still before it. */
  lemma OthersWait(w: World, w': World, tx: TxId)
    requires Inv(w) && tx in w'.transactions && TransactionInv(w', tx) && HoldsLicense(w'.transactions[tx])
    requires w'.rows == w.rows && w'.issued == w.issued && w'.tokens >= w.tokens
    requires w'.licenseLock == Some(tx) && (w.licenseLock == Some(tx) || w.licenseLock.None?)
    requires w'.transactions == w.transactions[tx := w'.transactions[tx]]
    ensures Inv(w')
  {
  }

  lemma WriteActivationKeepsInv(w: World, tx: TxId, newToken: Token)
    requires Inv(w) && Enabled(w, WriteActivation(tx, newToken))
    ensures Inv(Next(w, WriteActivation(tx, newToken)))
  {
    hide Fits, ActiveIds;
    var w' := Next(w, WriteActivation(tx, newToken));
    assert TransactionInv(w, tx);
    assert forall jd :: !HasToken(w.rows, jd, newToken);
    assert TransactionInv(w', tx);
    OthersWait(w, w', tx);
  }

  lemma WriteByTokenKeepsInv(w: World, tx: TxId, now: Time)
    requires Inv(w) && Enabled(w, WriteByToken(tx, now))
    ensures Inv(Next(w, WriteByToken(tx, now)))
  {
    var w' := Next(w, WriteByToken(tx, now));
    assert TransactionInv(w, tx);
    var t := w.transactions[tx];
    if t.read.state == Active {
      AllowedFits(w.rows, t.id);
    }
    hide Fits, ActiveIds;
    assert forall jd :: HasToken(w.rows, jd, t.token) ==> jd == t.id;
    assert TransactionInv(w', tx);
    OthersWait(w, w', tx);
  }

  lemma SeeTokenKeepsInv(w: World, tx: TxId, token: Token, refreshing: bool)
    requires Inv(w) && Enabled(w, SeeToken(tx, token, refreshing))
    ensures Inv(Next(w, SeeToken(tx, token, refreshing)))
  {
    hide Fits, ActiveIds, RowConstraints;
    var w' := Next(w, SeeToken(tx, token, refreshing));
    forall other | other in w'.transactions ensures TransactionInv(w', other) {
      if other != tx {
        assert TransactionInv(w, other);
      }
    }
  }

  lemma AbortKeepsInv(w: World, tx: TxId)
    requires Inv(w) && tx in w.transactions
    ensures Inv(Released(w, tx))
  {
    hide Fits, ActiveIds, RowConstraints;
    var w' := Released(w, tx);
    forall other | other in w'.transactions ensures TransactionInv(w', other) {
      assert TransactionInv(w, other);
    }
  }

  lemma LockKeepsInv(w: World, s: Statement)
    requires Inv(w) && Enabled(w, s) && (s.LockForActivation? || s.LockTokenLicense? || s.LockTokenRow?)
    ensures Inv(Next(w, s))
  {
    hide Fits, ActiveIds;
    var w' := Next(w, s);
    if s.tx in w.transactions {
      assert TransactionInv(w, s.tx);
    }
    assert TransactionInv(w', s.tx);
    OthersWait(w, w', s.tx);
  }

  lemma StatementKeepsInv(w: World, s: Statement)
    requires Inv(w) && Enabled(w, s)
    ensures Inv(Next(w, s))
  {
    match s
    case LockForActivation(_, _) => LockKeepsInv(w, s);
    case FindActivation(tx, newId) => FindKeepsInv(w, tx, newId);
    case CountActive(tx) => CountKeepsInv(w, tx);
    case WriteActivation(tx, newToken) => WriteActivationKeepsInv(w, tx, newToken);
    case SeeToken(tx, token, refreshing) => SeeTokenKeepsInv(w, tx, token, refreshing);
    case LockTokenLicense(_) => LockKeepsInv(w, s);
    case LockTokenRow(_) => LockKeepsInv(w, s);
    case WriteByToken(tx, now) => WriteByTokenKeepsInv(w, tx, now);
    case Commit(tx) => CommitKeepsInv(w, tx);
    case Abort(tx) => AbortKeepsInv(w, tx);
    case DeactivateManaged(id, now) => ReleaseKeepsInv(w, id, now);
  }

  // ----- every interleaving -----

  ghost predicate Step(w: World, w': World) {
    exists s :: Enabled(w, s) && w' == Next(w, s)
  }

  ghost predicate Run(run: seq<World>) {
    run != [] && Init(run[0]) && forall i :: 0 <= i < |run| - 1 ==> Step(run[i], run[i + 1])
  }

  lemma {:induction false} RunKeepsInv(run: seq<World>, i: nat)
    requires Run(run) && i < |run|
    ensures Inv(run[i])
    decreases i
  {
    if i > 0 {
      RunKeepsInv(run, i - 1);
      assert Step(run[i - 1], run[i]);
      var s :| Enabled(run[i - 1], s) && run[i] == Next(run[i - 1], s);
      StatementKeepsInv(run[i - 1], s);
    }
  }

  /** No interleaving gives the license more than two active activations, even one that re-activates a row
      released between its read and its write. */
  lemma AtMostTwoActive(run: seq<World>, i: nat)
    requires Run(run) && i < |run|
    ensures |ActiveIds(run[i].rows)| <= MAXIMUM_ACTIVATIONS
    ensures RowConstraints(run[i].rows)
  {
    RunKeepsInv(run, i);
  }

  /** Revisions returned for one activation strictly increase over all concurrent activations and refreshes. */
  lemma RevisionsStrictlyIncrease(run: seq<World>, i: nat, m: nat, n: nat)
    requires Run(run) && i < |run| && m < n < |run[i].issued|
    requires run[i].issued[m].id == run[i].issued[n].id
    ensures run[i].issued[m].revision < run[i].issued[n].revision
  {
    RunKeepsInv(run, i);
  }

  // ----- replaced tokens -----

  /** A token that was replaced: no row carries it, and nobody is about to write it. */
  ghost predicate Retired(w: World, token: Token) {
    && token in w.tokens
    && (forall id :: !HasToken(w.rows, id, token))
    && (forall tx :: tx in w.transactions && w.transactions[tx].Written? ==> w.transactions[tx].row.token != token)
  }

  /** Re-activating an installation retires the token it had. */
  lemma ReactivationRetires(w: World, tx: TxId, id: ActivationId, token: Token)
    requires Inv(w) && Enabled(w, Statement.Commit(tx)) && HasToken(w.rows, id, token)
    requires !HasToken(Next(w, Statement.Commit(tx)).rows, id, token)
    ensures Retired(Next(w, Statement.Commit(tx)), token)
  {
  }

  ghost predicate NoRefreshSince(w: World, since: nat, token: Token) {
    forall n :: since <= n < |w.issued| && w.issued[n].refreshed ==> w.issued[n].token != token
  }

  lemma RetiredStays(w: World, s: Statement, token: Token, since: nat)
    requires Inv(w) && Enabled(w, s) && Retired(w, token) && NoRefreshSince(w, since, token)
    ensures Retired(Next(w, s), token) && NoRefreshSince(Next(w, s), since, token)
  {
    hide Fits, ActiveIds, RowConstraints, IssuedInv, FoundStands, Absent;
    var w' := Next(w, s);
    if s.Commit? || s.WriteByToken? {
      assert TransactionInv(w, s.tx);
    }
    forall id ensures !HasToken(w'.rows, id, token) {
      assert !HasToken(w.rows, id, token);
    }
    forall tx | tx in w'.transactions && w'.transactions[tx].Written? ensures w'.transactions[tx].row.token != token {
      if s.WriteByToken? && tx == s.tx {
        assert !HasToken(w.rows, w.transactions[tx].id, token);
      } else if s.WriteActivation? && tx == s.tx {
      } else {
        assert w.transactions[tx] == w'.transactions[tx];
      }
    }
    if s.Commit? && w.transactions[s.tx].answer.Some? {
      assert w.transactions[s.tx].answer.value.token == w.transactions[s.tx].row.token;
    }
  }

  /** A replaced token never refreshes again, in any continuation. */
  lemma {:induction false} ReplacedTokenCannotRefresh(run: seq<World>, i: nat, j: nat, token: Token)
    requires Run(run) && i <= j < |run| && Retired(run[i], token)
    ensures Retired(run[j], token) && NoRefreshSince(run[j], |run[i].issued|, token)
    decreases j
  {
    hide Inv, Retired, Enabled, Next, Init;
    if i < j {
      ReplacedTokenCannotRefresh(run, i, j - 1, token);
      RunKeepsInv(run, j - 1);
      hide NoRefreshSince;
      assert Step(run[j - 1], run[j]);
      var s :| Enabled(run[j - 1], s) && run[j] == Next(run[j - 1], s);
      RetiredStays(run[j - 1], s, token, |run[i].issued|);
    }
  }
}
