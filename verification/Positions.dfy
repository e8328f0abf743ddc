/** The balances that a preview is computed from, and its fingerprint. */
module Positions {
  import opened Common
  import opened Ledger

  datatype Position = Position(account: nat, balance: int, allowNegative: bool, version: nat)

  /** The account ids of a query in ascending order: `WHERE id IN (...) ORDER BY id`. */
  function SelectIds(n: nat, ids: set<nat>): (r: seq<nat>)
    ensures forall i :: 0 <= i < |r| ==> r[i] < n && r[i] in ids
    ensures forall a :: a in ids && a < n ==> a in r
    ensures forall i, j :: 0 <= i < j < |r| ==> r[i] < r[j]
  {
    if n == 0 then [] else SelectIds(n - 1, ids) + if n - 1 in ids then [n - 1] else []
  }

  function PositionsOf(s: State, ids: seq<nat>, asOf: Time): (r: Result<seq<Position>>)
    requires forall i :: 0 <= i < |ids| ==> ids[i] < |s.accounts|
    ensures r.Ok? ==> |r.value| == |ids|
    ensures r.Ok? ==> forall i :: 0 <= i < |ids| ==> r.value[i] == PositionOf(s, ids[i], asOf)
  {
    if |ids| == 0 then Ok([]) else
    var front :- PositionsOf(s, ids[..|ids| - 1], asOf);
    var balance :- Snapshot(s, ids[|ids| - 1], asOf);
    Ok(front + [PositionOf(s, ids[|ids| - 1], asOf)])
  }

  function PositionOf(s: State, a: nat, asOf: Time): Position
    requires a < |s.accounts|
  {
    Position(a, Balance(s, a, asOf), s.accounts[a].allowNegative, s.accounts[a].version)
  }

  /** The account, version and balance of every position; the policy is not part of it. */
  function FingerprintOf(ps: seq<Position>): Fingerprint {
    OfPositions(seq(|ps|, i requires 0 <= i < |ps| => (ps[i].account, ps[i].version, ps[i].balance)))
  }

  /** Every account of a set is active and was open at `at`. */
  function RequireParticipants(s: State, ids: seq<nat>, at: Time): (r: Result<Unit>)
    requires forall i :: 0 <= i < |ids| ==> ids[i] < |s.accounts|
    ensures r.Ok? ==> forall i :: 0 <= i < |ids| ==>
      s.accounts[ids[i]].status == Active && s.accounts[ids[i]].openedAt <= at
  {
    if |ids| == 0 then Ok(Unit) else
    var _ :- RequireParticipants(s, ids[..|ids| - 1], at);
    var account := s.accounts[ids[|ids| - 1]];
    var _ :- RequireActive(account);
    Need(account.openedAt <= at, TransactionBeforeAccountOpened)
  }

  /** One version step for every account of the set. */
  function BumpedAll(accounts: seq<Account>, ids: set<nat>): (r: seq<Account>)
    ensures |r| == |accounts|
  {
    seq(|accounts|, i requires 0 <= i < |accounts| =>
      if i in ids then accounts[i].(version := accounts[i].version + 1) else accounts[i])
  }

  /** `for account_id in affected: accounts[account_id].version += 1`, in whatever order the set is walked. */
  method BumpVersions(db: Database, affected: set<nat>)
    requires forall a :: a in affected ==> a < |db.accounts|
    modifies db`accounts
    ensures db.accounts == BumpedAll(old(db.accounts), affected)
  {
    ghost var before := db.accounts;
    var left := affected;
    while left != {}
      invariant left <= affected
      invariant db.accounts == BumpedAll(before, affected - left)
    {
      var a :| a in left;
      db.BumpVersion(a);
      left := left - {a};
    }
    assert affected - left == affected;
  }

  // ---- Reading the same accounts again ----

  lemma {:induction false} SelectMore(n: nat, m: nat, ids: set<nat>)
    requires n <= m && forall a :: a in ids ==> a < n
    ensures SelectIds(m, ids) == SelectIds(n, ids)
  {
    if n < m {
      SelectMore(n, m - 1, ids);
    }
  }

  lemma {:induction false} SameSelection(n: nat, m: nat, ids: set<nat>)
    requires forall a :: a in ids ==> a < n && a < m
    ensures SelectIds(n, ids) == SelectIds(m, ids)
  {
    if n <= m {
      SelectMore(n, m, ids);
    } else {
      SelectMore(m, n, ids);
    }
  }

  /** The rows of the accounts, and their balances at two moments, are the same in both states. */
  ghost predicate SameView(s: State, asOf: Time, s': State, asOf': Time, ids: seq<nat>) {
    forall i :: 0 <= i < |ids| ==>
      && ids[i] < |s.accounts| && ids[i] < |s'.accounts|
      && s'.accounts[ids[i]] == s.accounts[ids[i]] && Balance(s', ids[i], asOf') == Balance(s, ids[i], asOf)
  }

  lemma {:induction false} SamePositions(s: State, asOf: Time, s': State, asOf': Time, ids: seq<nat>, at: Time)
    requires SameView(s, asOf, s', asOf', ids)
    ensures PositionsOf(s', ids, asOf') == PositionsOf(s, ids, asOf)
    ensures RequireParticipants(s', ids, at) == RequireParticipants(s, ids, at)
  {
    if |ids| > 0 {
      SamePositions(s, asOf, s', asOf', ids[..|ids| - 1], at);
      assert ids[|ids| - 1] < |s.accounts|;
    }
  }
}
