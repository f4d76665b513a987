/** A person signing their own devices out: sessions are deleted, and every grant that a
    deleted session fanned out to goes with it, in one transaction over both tables. */
module Account {
  import opened Basics
  import S = SessionModel
  import Runs = SessionRuns
  import Chain = SessionChain
  import Service = SessionService
  import G = GrantModel
  import GrantRuns
  import Store = GrantStore

  datatype Outcome = Ended(sessions: nat, grants: nat) | Refused(why: S.Failure)

  // ----- the grants of several sessions ------------------------------------

  function IDsOf(keys: set<S.RowKey>): set<S.SessionID> {
    set k <- keys :: k.id
  }

  function ListedIDs(revoked: seq<Service.RevokedRow>): set<S.SessionID> {
    set row <- revoked :: row.id
  }

  function FannedOut(g: G.State, tenant: TenantID, ids: set<S.SessionID>): set<G.GrantKey> {
    set k | k in g.grants && k.tenant == tenant && g.grants[k].session.Some? && g.grants[k].session.value in ids
  }

  function HistoryOf(g: G.State, gone: set<G.GrantKey>): set<G.HashKey> {
    set h | h in g.superseded && G.GrantKey(h.tenant, g.superseded[h].grant) in gone
  }

  /** The grant tables without what these sessions fanned out to. */
  function Without(g: G.State, tenant: TenantID, ids: set<S.SessionID>): G.State {
    var gone := FannedOut(g, tenant, ids);
    g.(grants := g.grants - gone, superseded := g.superseded - HistoryOf(g, gone))
  }

  lemma WithoutNone(g: G.State, tenant: TenantID)
    ensures Without(g, tenant, {}) == g
  {
  }

  /** One more delete by session is one more session in the set. */
  lemma WithoutOneMore(g: G.State, tenant: TenantID, ids: set<S.SessionID>, id: S.SessionID)
    ensures G.DeleteState(Without(g, tenant, ids), tenant, G.BySession(id)) == Without(g, tenant, ids + {id})
  {
    var mid := Without(g, tenant, ids);
    var picked := G.Selected(mid, tenant, G.BySession(id));
    var t, u := G.DeleteState(mid, tenant, G.BySession(id)), Without(g, tenant, ids + {id});
    forall k
      ensures k in t.grants <==> k in u.grants
    {
      assert k in mid.grants && k.tenant == tenant && mid.grants[k].session == Some(id) ==> k.id in picked;
      assert k in mid.grants && k.tenant == tenant && k.id in picked ==>
        exists j :: j in mid.grants && j.tenant == tenant && j.id == k.id && mid.grants[j].session == Some(id)
          && j == k;
    }
    assert t.grants == u.grants;
    forall h
      ensures h in t.superseded <==> h in u.superseded
    {
      if h in g.superseded {
        var k := G.GrantKey(h.tenant, g.superseded[h].grant);
        assert k in FannedOut(g, tenant, ids + {id}) <==>
          k in FannedOut(g, tenant, ids)
            || (k in mid.grants && k.tenant == tenant && mid.grants[k].session == Some(id));
        assert h.tenant == tenant ==>
          (k.id in picked <==> k in mid.grants && mid.grants[k].session == Some(id)) by {
          if h.tenant == tenant && k.id in picked {
            var j :| j in mid.grants && j.tenant == tenant && j.id == k.id && mid.grants[j].session == Some(id);
            assert j == k;
          }
        }
      }
    }
    assert t.superseded == u.superseded;
  }

  // ----- the service -------------------------------------------------------

  class Accounts {
    const sessions: Service.Sessions
    const grants: Store.Grants

    constructor (sessions: Service.Sessions, grants: Store.Grants)
      ensures this.sessions == sessions && this.grants == grants
    {
      this.sessions, this.grants := sessions, grants;
    }

    ghost predicate Valid()
      reads sessions, grants
    {
      sessions.Valid() && grants.Valid()
    }

    /** Ends every session of one person but `except`. `unread` are the sessions whose
        grants the database fails to delete. */
    method RevokeOthers(
      tenant: TenantID, user: Option<UserID>, except: Option<S.SessionID>,
      written: bool, unread: set<S.SessionID>, audited: bool)
      returns (out: Outcome)
      requires Valid()
      modifies sessions`rows, sessions`cache, grants`grants, grants`superseded
      ensures Valid()
      ensures user.None? ==>
                out == Refused(S.NoSuchSession) && sessions.View() == old(sessions.View())
                  && grants.View() == old(grants.View())
      ensures user.Some? ==>
                var keys := S.HeldBy(old(sessions.View()), tenant, user.value, except);
                var fate := FateOf(written, IDsOf(keys) !! unread, keys == {} || audited);
                && sessions.View() == S.Deleted(old(sessions.View()), keys, fate)
                && grants.View() == Kept(old(grants.View()), tenant, IDsOf(keys), fate)
                && (out.Ended? <==> fate == Committed)
                && (out.Ended? <==> written && (forall k <- keys :: k.id !in unread) && (keys == {} || audited))
      ensures out.Ended? ==> out.sessions == |old(sessions.rows)| - |sessions.rows|
                             && out.grants == |old(grants.grants)| - |grants.grants|
    {
      hide Runs.Inv, GrantRuns.Inv, Without, Runs.Later, G.DeleteState, GrantRuns.After, Kept, S.Deleted;
      if user.None? { return Refused(S.NoSuchSession); }
      ghost var keys := S.HeldBy(sessions.View(), tenant, user.value, except);
      EitherWay(sessions.View(), grants.View(), keys, tenant, IDsOf(keys));
      var rows, grantRows, history := sessions.rows, grants.grants, grants.superseded;
      var revoked := sessions.CachingRevokeUser(tenant, user.value, except, written);
      if revoked.None? { return Refused(S.StorageFailed); }
      ListedOnce(revoked.value, rows, tenant, keys);
      hide Service.Lists;
      var total, failed := RevokeEach(tenant, revoked.value, unread);
      if failed || (|revoked.value| != 0 && !audited) {
        RollBack(rows, grantRows, history);
        return Refused(if failed then S.StorageFailed else S.AuditRefused);
      }
      return Ended(|revoked.value|, total);
    }

    /** A transaction that fails brings back the tables of both stores, and no cache entry. */
    method RollBack(
      rows: map<S.RowKey, S.Row>, grantRows: map<G.GrantKey, G.GrantRow>, history: map<G.HashKey, G.Superseded>)
      modifies sessions`rows, grants`grants, grants`superseded
      ensures sessions.View() == old(sessions.View()).(rows := rows)
      ensures grants.View() == old(grants.View()).(grants := grantRows, superseded := history)
    {
      sessions.rows, grants.grants, grants.superseded := rows, grantRows, history;
    }

    /** The loop of `RevokeOthers`: one delete of grants for each session that went. */
    method RevokeEach(tenant: TenantID, revoked: seq<Service.RevokedRow>, unread: set<S.SessionID>)
      returns (total: nat, failed: bool)
      requires grants.Valid()
      modifies grants`grants, grants`superseded
      ensures grants.Valid()
      ensures var ids := ListedIDs(revoked);
              && (failed <==> !(ids !! unread))
              && (!failed ==> grants.View() == Without(old(grants.View()), tenant, ids))
      ensures grants.View() == old(grants.View()).(grants := grants.grants, superseded := grants.superseded)
      ensures total == |old(grants.grants)| - |grants.grants|
    {
      hide GrantRuns.Inv, Without, G.DeleteState;
      total := 0;
      WithoutNone(grants.View(), tenant);
      assert ListedIDs(revoked[..0]) == {};
      for i := 0 to |revoked|
        invariant grants.Valid()
        invariant ListedIDs(revoked[..i]) !! unread
        invariant grants.View() == Without(old(grants.View()), tenant, ListedIDs(revoked[..i]))
        invariant total == |old(grants.grants)| - |grants.grants|
      {
        var id := revoked[i].id;
        ghost var before := ListedIDs(revoked[..i]);
        assert ListedIDs(revoked[..i + 1]) == before + {id};
        if id in unread {
          assert id in ListedIDs(revoked);
          return total, true;
        }
        WithoutOneMore(old(grants.View()), tenant, before, id);
        var count := grants.DeleteGrantsByLoginSession(tenant, Some(id));
        total := total + count;
      }
      assert revoked[..|revoked|] == revoked;
      failed := false;
    }

    /** Ends one session of the caller. Somebody else's session reads like none at all. */
    method Revoke(
      tenant: TenantID, user: Option<UserID>, id: S.SessionID, written: bool, unread: bool, audited: bool)
      returns (out: Outcome)
      requires Valid()
      modifies sessions`rows, sessions`cache, grants`grants, grants`superseded
      ensures Valid()
      ensures out == Refused(S.NoSuchSession) <==>
                user.None? || S.Named(old(sessions.View()), S.RowKey(tenant, id), user) == {}
      ensures out == Refused(S.NoSuchSession) ==>
                sessions.View() == old(sessions.View()) && grants.View() == old(grants.View())
      ensures out != Refused(S.NoSuchSession) ==>
                var fate := FateOf(written, !unread, audited);
                && sessions.View() == S.Deleted(old(sessions.View()), {S.RowKey(tenant, id)}, fate)
                && grants.View() == Kept(old(grants.View()), tenant, {id}, fate)
                && (out.Ended? <==> fate == Committed) && (out.Ended? <==> written && !unread && audited)
      ensures out.Ended? ==> out.sessions == 1 && out.grants == |old(grants.grants)| - |grants.grants|
    {
      hide Runs.Inv, GrantRuns.Inv, Without, Runs.Later, G.DeleteState, GrantRuns.After, Kept, S.Deleted;
      if user.None? { return Refused(S.NoSuchSession); }
      ghost var keys := S.Named(sessions.View(), S.RowKey(tenant, id), user);
      EitherWay(sessions.View(), grants.View(), keys, tenant, {id});
      var rows, grantRows, history := sessions.rows, grants.grants, grants.superseded;
      var revoked := sessions.CachingRevoke(tenant, user, id, written);
      if revoked.Err? { return Refused(revoked.error); }
      WithoutNone(grants.View(), tenant);
      WithoutOneMore(grants.View(), tenant, {}, id);
      assert {} + {id} == {id};
      var count := 0;
      if !unread { count := grants.DeleteGrantsByLoginSession(tenant, Some(id)); }
      if unread || !audited {
        RollBack(rows, grantRows, history);
        return Refused(if unread then S.StorageFailed else S.AuditRefused);
      }
      return Ended(1, count);
    }
  }

  /** How one transaction over the two stores ends. */
  function FateOf(written: bool, deletes: bool, audited: bool): Fate {
    if !written then WriteFailed else if deletes && audited then Committed else AuditFailed
  }

  function Kept(g: G.State, tenant: TenantID, ids: set<S.SessionID>, fate: Fate): G.State {
    if fate == Committed then Without(g, tenant, ids) else g
  }

  /** Both endings of the transaction keep the invariant of the sessions, and what each of
      them leaves in the tables. */
  lemma EitherWay(s: S.State, g: G.State, keys: set<S.RowKey>, tenant: TenantID, ids: set<S.SessionID>)
    requires Runs.Inv(s) && keys <= s.rows.Keys
    ensures forall fate :: Runs.Inv(S.Deleted(s, keys, fate))
    ensures S.Deleted(s, keys, WriteFailed) == s
    ensures S.Deleted(s, keys, Committed).(rows := s.rows) == S.Deleted(s, keys, AuditFailed)
    ensures |keys| == |s.rows| - |S.Deleted(s, keys, Committed).rows|
    ensures Kept(g, tenant, ids, Committed) == Without(g, tenant, ids)
    ensures forall fate :: fate != Committed ==> Kept(g, tenant, ids, fate) == g
  {
    forall fate
      ensures Runs.Inv(S.Deleted(s, keys, fate))
    {
      Runs.DeletedKeeps(s, keys, fate);
    }
    assert (s.rows - keys).Keys == s.rows.Keys - keys;
    assert |(s.rows - keys).Keys| == |s.rows - keys| && |s.rows.Keys| == |s.rows|;
  }

  // ----- counting ----------------------------------------------------------

  /** A listing names as many sessions as there are keys, and the same ones. */
  lemma ListedOnce(revoked: seq<Service.RevokedRow>, rows: map<S.RowKey, S.Row>, tenant: TenantID, keys: set<S.RowKey>)
    requires Service.Lists(revoked, rows, tenant, keys)
    ensures |revoked| == |keys|
    ensures ListedIDs(revoked) == IDsOf(keys)
  {
    var ids := ListedIDs(revoked);
    forall id | id in ids
      ensures id in IDsOf(keys)
    {
      assert S.RowKey(tenant, id) in keys;
    }
    assert ids == IDsOf(keys);
    DistinctCount(revoked);
    IDsCount(keys, tenant);
  }

  lemma {:induction false} DistinctCount(revoked: seq<Service.RevokedRow>)
    requires forall i, j :: 0 <= i < j < |revoked| ==> revoked[i].id != revoked[j].id
    ensures |ListedIDs(revoked)| == |revoked|
  {
    if revoked != [] {
      var n := |revoked| - 1;
      var init := revoked[..n];
      DistinctCount(init);
      var before := ListedIDs(init);
      assert ListedIDs(revoked) == before + {revoked[n].id};
    }
  }

  lemma {:induction false} IDsCount(keys: set<S.RowKey>, tenant: TenantID)
    requires forall k <- keys :: k.tenant == tenant
    ensures |IDsOf(keys)| == |keys|
  {
    if keys != {} {
      var k :| k in keys;
      IDsCount(keys - {k}, tenant);
      assert IDsOf(keys) == IDsOf(keys - {k}) + {k.id};
      assert k.id in IDsOf(keys - {k}) ==> S.RowKey(tenant, k.id) in keys - {k};
    }
  }

  // ----- what it means -----------------------------------------------------

  /** After a committed sign-out of the others: the person holds no session but the spared
      one, nothing the removed sessions fanned out to is left, and nobody else's session or
      grant moved. No token of a removed session ever resolves again, whatever runs later. */
  lemma SignedOutElsewhere(
    s: S.State, g: G.State, tenant: TenantID, user: UserID, except: Option<S.SessionID>,
    after: seq<S.Op>, home: TenantID, token: Token)
    requires Runs.Inv(s) && GrantRuns.Inv(g)
    requires S.Admissible(S.Deleted(s, S.HeldBy(s, tenant, user, except), Committed), after)
    ensures var keys := S.HeldBy(s, tenant, user, except);
            var t, u := S.Deleted(s, keys, Committed), Without(g, tenant, IDsOf(keys));
            && (forall k :: k in t.rows && k.tenant == tenant && t.rows[k].user == Some(user) ==> Some(k.id) == except)
            && (forall k ::
                  k in s.rows && (k.tenant != tenant || s.rows[k].user != Some(user) || Some(k.id) == except) ==>
                  k in t.rows && t.rows[k] == s.rows[k])
            && (forall k, gone :: k in u.grants && gone in keys && k.tenant == tenant ==>
                  u.grants[k].data.plain.session != Some(gone.id))
            && (forall k ::
                k in g.grants
                && (k.tenant == tenant ==> forall gone <- keys :: g.grants[k].session != Some(gone.id)) ==>
                  k in u.grants && u.grants[k] == g.grants[k])
            && (forall gone <- keys :: !Chain.ResolvesTo(S.Run(t, after), home, token, gone))
  {
    var keys := S.HeldBy(s, tenant, user, except);
    var t, u := S.Deleted(s, keys, Committed), Without(g, tenant, IDsOf(keys));
    Runs.DeletedKeeps(s, keys, Committed);
    assert forall k :: k in g.grants ==> GrantRuns.SoundRow(g, k);
    forall k, gone | k in u.grants && gone in keys && k.tenant == tenant
      ensures u.grants[k].data.plain.session != Some(gone.id)
    {
      assert gone.id in IDsOf(keys);
    }
    forall gone | gone in keys
      ensures !Chain.ResolvesTo(S.Run(t, after), home, token, gone)
    {
      Chain.HeldID(s, gone);
      Chain.OverForGood(t, after, gone, home, token);
    }
  }
}
