/** internal/billing/reconciliation.go: the daily scan of completed Checkout Sessions. */
module Reconciliation {
  import opened Basics

  type LinkId = string
  type SessionId = string

  const MAXIMUM_LINK_SESSIONS: nat := 10000

  datatype ListedSession = ListedSession(id: SessionId, valid: bool, paid: bool)

  datatype Page = Page(sessions: seq<ListedSession>, more: bool)

  datatype ScanError =
    | ListFailed(link: LinkId) | EmptyPage(link: LinkId) | LimitExceeded(link: LinkId) | InvalidSession
    | RepeatedPage(link: LinkId) | CheckFailed | ReconcileFailed(session: SessionId)

  /** What the database says of a session's order. The first check counts unfinished adjustments as a
      restriction, the one after processing only blocking ones. */
  datatype Standing = Standing(fulfilled: bool, blocking: bool, unfinished: bool)

  /** The world around a scan: Stripe's answer to each call, and the database as it stands at each query; either
      may have changed since the last. `process` says whether processing the session's event succeeded. */
  datatype Environment = Environment(
    list: (nat, LinkId, SessionId) -> Option<Page>,
    standing: (nat, SessionId) -> Option<Standing>,
    process: (nat, SessionId) -> bool)

  /** A query about a session's order, before or after the session has been processed. */
  datatype Query = Check(session: SessionId) | CheckAgain(session: SessionId)

  /** The calls to Stripe's list so far, the queries made, and the results of the scan. */
  datatype Progress = Progress(calls: nat, asked: seq<Query>, recovered: nat, firstError: Option<ScanError>)

  /** The scan saw this session settled. */
  ghost predicate Settled(env: Environment, perpetual: bool, asked: seq<Query>, session: SessionId) {
    exists q :: 0 <= q < |asked| && asked[q].session == session && SettledAt(env, perpetual, q, asked[q])
  }

  /** A query that shows its session settled: the first, if the order is restricted, or fulfilled for good; or the
      one after it was processed, if it is fulfilled or blocked. */
  predicate SettledAt(env: Environment, perpetual: bool, query: nat, asked: Query) {
    && env.standing(query, asked.session).Some?
    && var s := env.standing(query, asked.session).value;
       match asked
       case Check(_) => s.blocking || s.unfinished || (s.fulfilled && perpetual)
       case CheckAgain(session) => env.process(query, session) && (s.fulfilled || s.blocking)
  }

  /** Reconciling the session at this query does not settle it. */
  predicate FailsAt(env: Environment, query: nat, session: SessionId) {
    !env.process(query, session) || !SettledAt(env, false, query, CheckAgain(session))
  }

  /** What a scan has done with these sessions: it asked about every paid one, and with no failure it saw each
      of them settled. */
  ghost predicate Scanned(env: Environment, perpetual: bool, progress: Progress, sessions: seq<ListedSession>) {
    forall i :: 0 <= i < |sessions| && sessions[i].paid ==>
      && Check(sessions[i].id) in progress.asked
      && (progress.firstError.None? ==> Settled(env, perpetual, progress.asked, sessions[i].id))
  }

  /** A failure that was not there before is one of a paid session that could not be settled. */
  ghost predicate FailureHasCause(env: Environment, before: Progress, after: Progress) {
    after.firstError != before.firstError ==>
      exists q, session :: 0 <= q <= |after.asked| && after.firstError == Some(ReconcileFailed(session))
        && Check(session) in after.asked && FailsAt(env, q, session)
  }

  /** A check that went unanswered. */
  ghost predicate CheckUnanswered(env: Environment, asked: seq<Query>) {
    exists q :: 0 <= q < |asked| && asked[q].Check? && env.standing(q, asked[q].session).None?
  }

  predicate Follows(before: Progress, after: Progress) {
    && before.calls <= after.calls && before.asked <= after.asked && before.recovered <= after.recovered
    && (before.firstError.Some? ==> after.firstError == before.firstError)
  }

  lemma SettledLater(env: Environment, perpetual: bool, before: seq<Query>, after: seq<Query>, session: SessionId)
    requires Settled(env, perpetual, before, session) && before <= after
    ensures Settled(env, perpetual, after, session)
  {
    var q :| 0 <= q < |before| && before[q].session == session && SettledAt(env, perpetual, q, before[q]);
    assert after[q] == before[q];
  }

  lemma ScannedLater(env: Environment, perpetual: bool, before: Progress, after: Progress,
                     sessions: seq<ListedSession>)
    requires Scanned(env, perpetual, before, sessions) && Follows(before, after)
    ensures Scanned(env, perpetual, after, sessions)
  {
    forall i | 0 <= i < |sessions| && sessions[i].paid && before.firstError.None?
      ensures Settled(env, perpetual, after.asked, sessions[i].id)
    {
      SettledLater(env, perpetual, before.asked, after.asked, sessions[i].id);
    }
  }

  lemma ScannedTogether(env: Environment, perpetual: bool, progress: Progress, earlier: seq<ListedSession>,
                        sessions: seq<ListedSession>)
    ensures Scanned(env, perpetual, progress, [])
    ensures Scanned(env, perpetual, progress, earlier) && Scanned(env, perpetual, progress, sessions) ==>
              Scanned(env, perpetual, progress, earlier + sessions)
  {
  }

  lemma CauseLater(env: Environment, a: Progress, b: Progress, c: Progress)
    requires FailureHasCause(env, a, b) && FailureHasCause(env, b, c) && Follows(a, b) && Follows(b, c)
    ensures FailureHasCause(env, a, c)
  {
  }

  /** Everything a link lists from a call and a cursor on, page after page. */
  ghost predicate Listing(env: Environment, call: nat, link: LinkId, cursor: SessionId, listed: seq<ListedSession>)
    decreases |listed|
  {
    var page := env.list(call, link, cursor);
    && page.Some?
    && if !page.value.more then listed == page.value.sessions
       else
         var n := |page.value.sessions|;
         && 0 < n <= |listed| && listed[..n] == page.value.sessions
         && Listing(env, call + 1, link, page.value.sessions[n - 1].id, listed[n..])
  }

  /** At least this many sessions are listed by a link from a call and a cursor on. */
  ghost predicate ListsAtLeast(env: Environment, call: nat, link: LinkId, cursor: SessionId, n: int)
    decreases n
  {
    n <= 0
    || (env.list(call, link, cursor).Some?
        && var page := env.list(call, link, cursor).value;
           n <= |page.sessions|
           || (page.more && page.sessions != []
               && ListsAtLeast(env, call + 1, link, page.sessions[|page.sessions| - 1].id, n - |page.sessions|)))
  }

  /** reconcileSession: process the session, then check what came of it. */
  method ReconcileSession(env: Environment, asked: seq<Query>, session: SessionId)
    returns (ok: bool, after: seq<Query>)
    ensures ok <==> !FailsAt(env, |asked|, session)
    ensures after == if env.process(|asked|, session) then asked + [CheckAgain(session)] else asked
  {
    after := asked;
    if !env.process(|asked|, session) {
      return false, after;
    }
    var standing := env.standing(|asked|, session);
    after := asked + [CheckAgain(session)];
    if standing.None? {
      return false, after;
    }
    ok := standing.value.fulfilled || standing.value.blocking;
  }

  /** The check of one paid session, and its reconciliation where that is called for: unless the order is restricted,
      or a perpetual one already fulfilled. A monthly one is processed again, for what may have been missed. */
  method ScanSession(env: Environment, perpetual: bool, session: ListedSession, start: Progress)
    returns (progress: Progress, stop: Option<ScanError>)
    requires session.paid
    ensures Follows(start, progress) && progress.calls == start.calls && |progress.asked| <= |start.asked| + 2
    ensures start.asked + [Check(session.id)] <= progress.asked
    ensures stop == if env.standing(|start.asked|, session.id).None? then Some(CheckFailed) else None
    ensures stop.Some? ==> progress == start.(asked := start.asked + [Check(session.id)])
    ensures stop.None? ==>
              var first := env.standing(|start.asked|, session.id).value;
              var settled := SettledAt(env, perpetual, |start.asked|, Check(session.id));
              var failed := FailsAt(env, |start.asked| + 1, session.id);
              && progress.asked == start.asked + [Check(session.id)]
                                   + (if !settled && env.process(|start.asked| + 1, session.id)
                                      then [CheckAgain(session.id)] else [])
              && progress.recovered == start.recovered + (if settled || failed || first.fulfilled then 0 else 1)
              && progress.firstError == (if settled || !failed || start.firstError.Some? then start.firstError
                                         else Some(ReconcileFailed(session.id)))
    ensures stop.None? ==> Scanned(env, perpetual, progress, [session])
    ensures FailureHasCause(env, start, progress)
  {
    progress, stop := start, None;
    var query := |progress.asked|;
    var standing := env.standing(query, session.id);
    progress := progress.(asked := progress.asked + [Check(session.id)]);
    assert progress.asked[query] == Check(session.id);
    if standing.None? {
      return progress, Some(CheckFailed);
    }
    var restricted := standing.value.blocking || standing.value.unfinished;
    if restricted || (standing.value.fulfilled && perpetual) {
      assert SettledAt(env, perpetual, query, progress.asked[query]);
      return;
    }
    var ok, asked := ReconcileSession(env, progress.asked, session.id);
    progress := progress.(asked := asked);
    if !ok {
      if progress.firstError.None? {
        progress := progress.(firstError := Some(ReconcileFailed(session.id)));
      }
    } else {
      assert progress.asked[query + 1] == CheckAgain(session.id);
      assert SettledAt(env, perpetual, query + 1, progress.asked[query + 1]);
      if !standing.value.fulfilled {
        progress := progress.(recovered := progress.recovered + 1);
      }
    }
  }

  /** One page. A session that cannot be reconciled is passed over, and only the first failure is kept. */
  method ScanPage(env: Environment, perpetual: bool, sessions: seq<ListedSession>, start: Progress)
    returns (progress: Progress, stop: Option<ScanError>)
    ensures Follows(start, progress) && progress.calls == start.calls
            && progress.recovered <= start.recovered + |sessions|
    ensures |progress.asked| <= |start.asked| + 2 * |sessions|
    ensures FailureHasCause(env, start, progress)
    ensures match stop
            case None =>
              Scanned(env, perpetual, progress, sessions) && forall i :: 0 <= i < |sessions| ==> sessions[i].valid
            case Some(error) =>
              || (error == InvalidSession && exists i :: 0 <= i < |sessions| && !sessions[i].valid)
              || (error == CheckFailed && CheckUnanswered(env, progress.asked))
  {
    hide Settled, Scanned, FailureHasCause, SettledAt, FailsAt;
    progress, stop := start, None;
    ScannedTogether(env, perpetual, progress, [], []);
    NoFailureYet(env, start);
    for i := 0 to |sessions|
      invariant Follows(start, progress) && progress.calls == start.calls && progress.recovered <= start.recovered + i
      invariant |progress.asked| <= |start.asked| + 2 * i
      invariant Scanned(env, perpetual, progress, sessions[..i]) && FailureHasCause(env, start, progress)
      invariant forall j :: 0 <= j < i ==> sessions[j].valid
      invariant stop.None?
    {
      var session := sessions[i];
      if !session.valid {
        return progress, Some(InvalidSession);
      }
      ghost var before := progress;
      if session.paid {
        progress, stop := ScanSession(env, perpetual, session, progress);
        CauseLater(env, start, before, progress);
        if stop.Some? {
          assert progress.asked[|before.asked|] == Check(session.id);
          return;
        }
      } else {
        UnpaidIsScanned(env, perpetual, progress, session);
      }
      ScannedLater(env, perpetual, before, progress, sessions[..i]);
      ScannedTogether(env, perpetual, progress, sessions[..i], [session]);
      assert sessions[..i + 1] == sessions[..i] + [session];
    }
    assert sessions[..|sessions|] == sessions;
  }

  lemma NoFailureYet(env: Environment, progress: Progress)
    ensures FailureHasCause(env, progress, progress)
  {
  }

  lemma UnpaidIsScanned(env: Environment, perpetual: bool, progress: Progress, session: ListedSession)
    requires !session.paid
    ensures Scanned(env, perpetual, progress, [session])
  {
  }

  /** The page at this call and cursor is a reason for this error. */
  predicate StopsAt(env: Environment, call: nat, link: LinkId, cursor: SessionId, error: ScanError) {
    var answer := env.list(call, link, cursor);
    if answer.None? then error == ListFailed(link)
    else
      var page := answer.value;
      || (error == EmptyPage(link) && page.more && page.sessions == [])
      || (error == InvalidSession && exists i :: 0 <= i < |page.sessions| && !page.sessions[i].valid)
      || (error == RepeatedPage(link) && page.more && page.sessions != []
          && page.sessions[|page.sessions| - 1].id == cursor)
  }

  /** Why a scan of a link stops early: a page it cannot go on from, a check that went unanswered, or more sessions
      than the limit. */
  ghost predicate StopHasCause(env: Environment, first: nat, link: LinkId, progress: Progress, error: ScanError) {
    match error
    case CheckFailed => CheckUnanswered(env, progress.asked)
    case LimitExceeded(l) => l == link && ListsAtLeast(env, first, link, "", MAXIMUM_LINK_SESSIONS + 1)
    case _ => exists call, cursor :: first <= call < progress.calls && StopsAt(env, call, link, cursor, error)
  }

  /** The pages of one link. Every page that is continued is non-empty and counts against the limit, so this
      ends for every lister, however its answers change, having looked at no more than the limit. */
  method ScanLink(env: Environment, link: LinkId, perpetual: bool, start: Progress)
    returns (progress: Progress, stop: Option<ScanError>)
    ensures Follows(start, progress) && progress.recovered <= start.recovered + MAXIMUM_LINK_SESSIONS
    ensures start.calls < progress.calls <= start.calls + MAXIMUM_LINK_SESSIONS + 1
    ensures |progress.asked| <= |start.asked| + 2 * MAXIMUM_LINK_SESSIONS
    ensures match stop
            case None => Covered(env, start.calls, link, perpetual, progress)
            case Some(error) => !error.ReconcileFailed? && StopHasCause(env, start.calls, link, progress, error)
    ensures FailureHasCause(env, start, progress)
  {
    progress, stop := start, None;
    ghost var listed := [];
    var cursor, seen, more := "", 0, true;
    hide Listing, Scanned, LeadsTo, AddsUp, FailureHasCause, CheckUnanswered, ListsAtLeast, FailsAt;
    NothingListed(env, start.calls, link);
    NoFailureYet(env, start);
    ScannedTogether(env, perpetual, progress, [], []);
    while more
      invariant seen == |listed| <= MAXIMUM_LINK_SESSIONS && stop.None?
      invariant progress.calls - start.calls <= if more then seen else seen + 1
      invariant |progress.asked| <= |start.asked| + 2 * seen && (more || start.calls < progress.calls)
      invariant Follows(start, progress) && progress.recovered <= start.recovered + seen
      invariant Scanned(env, perpetual, progress, listed) && FailureHasCause(env, start, progress)
      invariant if more then
                  && LeadsTo(env, start.calls, link, listed, progress.calls, cursor)
                  && AddsUp(env, start.calls, link, |listed|, progress.calls, cursor)
                else Listing(env, start.calls, link, "", listed)
      decreases more, MAXIMUM_LINK_SESSIONS - seen
    {
      ghost var before, earlier, at := progress, listed, cursor;
      var page := env.list(progress.calls, link, cursor);
      progress := progress.(calls := progress.calls + 1);
      if page.None? {
        assert StopsAt(env, before.calls, link, at, ListFailed(link));
        CallIsNoFailure(env, start, before, progress);
        return progress, Some(ListFailed(link));
      }
      var sessions := page.value.sessions;
      more := page.value.more;
      if sessions == [] && more {
        assert StopsAt(env, before.calls, link, at, EmptyPage(link));
        CallIsNoFailure(env, start, before, progress);
        return progress, Some(EmptyPage(link));
      }
      seen := seen + |sessions|;
      if seen > MAXIMUM_LINK_SESSIONS {
        TooManyListed(env, start.calls, link, |earlier|, before.calls, cursor, page.value);
        CallIsNoFailure(env, start, before, progress);
        return progress, Some(LimitExceeded(link));
      }
      CallIsNoFailure(env, start, before, progress);
      ghost var called := progress;
      progress, stop := ScanPage(env, perpetual, sessions, progress);
      CauseLater(env, start, called, progress);
      if stop.Some? {
        assert stop == Some(InvalidSession) ==> StopsAt(env, before.calls, link, at, InvalidSession);
        return;
      }
      listed := earlier + sessions;
      ScannedLater(env, perpetual, before, progress, earlier);
      ScannedTogether(env, perpetual, progress, earlier, sessions);
      PageListed(env, start.calls, link, earlier, before.calls, cursor, page.value);
      if more {
        var next := sessions[|sessions| - 1].id;
        if next == cursor {
          assert StopsAt(env, before.calls, link, at, RepeatedPage(link));
          return progress, Some(RepeatedPage(link));
        }
        cursor := next;
      }
    }
  }

  lemma CallIsNoFailure(env: Environment, start: Progress, before: Progress, after: Progress)
    requires FailureHasCause(env, start, before) && after == before.(calls := after.calls)
    ensures FailureHasCause(env, start, after)
  {
  }

  /** Everything the link lists, from call `first` on, was looked at: see Scanned. */
  ghost predicate Covered(env: Environment, first: nat, link: LinkId, perpetual: bool, progress: Progress) {
    exists listed :: Listing(env, first, link, "", listed) && |listed| <= MAXIMUM_LINK_SESSIONS
      && Scanned(env, perpetual, progress, listed)
  }

  /** What has been listed so far is the listing up to this cursor. */
  ghost predicate LeadsTo(env: Environment, first: nat, link: LinkId, listed: seq<ListedSession>, call: nat,
                          cursor: SessionId) {
    forall rest :: Listing(env, call, link, cursor, rest) ==> Listing(env, first, link, "", listed + rest)
  }

  /** And as many sessions. */
  ghost predicate AddsUp(env: Environment, first: nat, link: LinkId, listed: nat, call: nat, cursor: SessionId) {
    forall n :: ListsAtLeast(env, call, link, cursor, n) ==> ListsAtLeast(env, first, link, "", listed + n)
  }

  lemma NothingListed(env: Environment, first: nat, link: LinkId)
    ensures LeadsTo(env, first, link, [], first, "") && AddsUp(env, first, link, 0, first, "")
  {
    assert forall rest: seq<ListedSession> :: [] + rest == rest;
  }

  lemma PageListed(env: Environment, first: nat, link: LinkId, earlier: seq<ListedSession>, call: nat,
                   cursor: SessionId, page: Page)
    requires LeadsTo(env, first, link, earlier, call, cursor) && env.list(call, link, cursor) == Some(page)
    requires AddsUp(env, first, link, |earlier|, call, cursor)
    requires page.more ==> page.sessions != []
    ensures if page.more then
              var next := page.sessions[|page.sessions| - 1].id;
              && LeadsTo(env, first, link, earlier + page.sessions, call + 1, next)
              && AddsUp(env, first, link, |earlier + page.sessions|, call + 1, next)
            else Listing(env, first, link, "", earlier + page.sessions)
  {
    if page.more {
      var next, listed := page.sessions[|page.sessions| - 1].id, earlier + page.sessions;
      forall rest | Listing(env, call + 1, link, next, rest) ensures Listing(env, first, link, "", listed + rest) {
        ContinuedListing(env, call, link, cursor, page.sessions, rest);
        assert listed + rest == earlier + (page.sessions + rest);
      }
      var after, count := call + 1, |listed|;
      forall n | ListsAtLeast(env, after, link, next, n) ensures ListsAtLeast(env, first, link, "", count + n) {
        assert ListsAtLeast(env, call, link, cursor, |page.sessions| + n);
        assert |earlier| + (|page.sessions| + n) == count + n;
      }
    } else {
      assert Listing(env, call, link, cursor, page.sessions);
    }
  }

  lemma TooManyListed(env: Environment, first: nat, link: LinkId, listed: nat, call: nat, cursor: SessionId, page: Page)
    requires AddsUp(env, first, link, listed, call, cursor) && env.list(call, link, cursor) == Some(page)
    requires listed + |page.sessions| > MAXIMUM_LINK_SESSIONS
    ensures ListsAtLeast(env, first, link, "", MAXIMUM_LINK_SESSIONS + 1)
  {
    var n := MAXIMUM_LINK_SESSIONS + 1 - listed;
    assert ListsAtLeast(env, call, link, cursor, n);
    assert listed + n == MAXIMUM_LINK_SESSIONS + 1;
  }

  lemma ContinuedListing(env: Environment, call: nat, link: LinkId, cursor: SessionId, sessions: seq<ListedSession>,
                         rest: seq<ListedSession>)
    requires env.list(call, link, cursor) == Some(Page(sessions, true)) && sessions != []
    requires Listing(env, call + 1, link, sessions[|sessions| - 1].id, rest)
    ensures Listing(env, call, link, cursor, sessions + rest)
  {
    assert (sessions + rest)[|sessions|..] == rest;
  }

  /** A run over both links: `progress` is what it called and asked, and `monthly` the number of its first call
      about the second link. Unless a list, a page or a check stops it, it looks at every paid session that either
      link lists, whatever fails on the way, and reports the first failure; with no error every one of them was
      found or left settled. Whatever it reports, and whatever stops it, happened. */
  method Run(env: Environment, perpetualLink: LinkId, monthlyLink: LinkId)
    returns (recovered: nat, error: Option<ScanError>, progress: Progress, monthly: nat)
    ensures recovered == progress.recovered <= 2 * MAXIMUM_LINK_SESSIONS
    ensures progress.calls <= 2 * (MAXIMUM_LINK_SESSIONS + 1) && |progress.asked| <= 4 * MAXIMUM_LINK_SESSIONS
    ensures error.None? || error.value.ReconcileFailed? ==>
              && progress.firstError == error && 0 < monthly < progress.calls
              && Covered(env, 0, perpetualLink, true, progress) && Covered(env, monthly, monthlyLink, false, progress)
    ensures error.Some? && error.value.ReconcileFailed? ==>
              exists q :: 0 <= q <= |progress.asked| && FailsAt(env, q, error.value.session)
    ensures error.Some? && !error.value.ReconcileFailed? ==>
              || StopHasCause(env, 0, perpetualLink, progress, error.value)
              || StopHasCause(env, monthly, monthlyLink, progress, error.value)
  {
    hide Covered, StopHasCause;
    ghost var begin := Progress(0, [], 0, None);
    var scanned, stop := ScanLink(env, perpetualLink, true, Progress(0, [], 0, None));
    progress, monthly := scanned, scanned.calls;
    if stop.Some? {
      return scanned.recovered, stop, progress, monthly;
    }
    scanned, stop := ScanLink(env, monthlyLink, false, scanned);
    CauseLater(env, begin, progress, scanned);
    if stop.None? {
      CoveredLater(env, 0, perpetualLink, true, progress, scanned);
    }
    progress := scanned;
    if stop.Some? {
      return scanned.recovered, stop, progress, monthly;
    }
    recovered, error := scanned.recovered, scanned.firstError;
  }

  lemma CoveredLater(env: Environment, first: nat, link: LinkId, perpetual: bool, before: Progress, after: Progress)
    requires Covered(env, first, link, perpetual, before) && Follows(before, after)
    ensures Covered(env, first, link, perpetual, after)
  {
    var listed :| Listing(env, first, link, "", listed) && |listed| <= MAXIMUM_LINK_SESSIONS
      && Scanned(env, perpetual, before, listed);
    ScannedLater(env, perpetual, before, after, listed);
  }
}
