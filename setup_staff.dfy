/**
 * The staff bootstrap: for each configured id, create an admin staff user
 * when none exists, or promote the existing user to admin staff.
 */
module SetupStaff {
  import opened Wrappers
  import opened Text
  import opened Models
  import opened Storage

  type Users = map<UserId, User>

  /** The handle given to an admin created by the bootstrap: `admin_<id>`. */
  function AdminName(id: UserId): (name: string)
    ensures StartsWith(name, "admin_") && ParseInt(name[6..]) == Some(id)
  {
    var name := "admin_" + IntToString(id);
    assert name[6..] == IntToString(id);
    ParseIntRoundTrip(id);
    name
  }

  /** The user the bootstrap creates for an unknown id; unlisted fields take their defaults. */
  function NewAdmin(id: UserId): (u: User)
    ensures u.telegramId == id && u.username == Some(AdminName(id))
    ensures u.isStaff && u.role == Admin
    ensures u.state == EmptyState && u.activeTicket == None
  {
    NewUser(id, Some(AdminName(id))).(isStaff := true, role := Admin)
  }

  /** An existing user made admin staff, every other field kept. */
  function Promoted(u: User): User {
    u.(isStaff := true, role := Admin)
  }

  /**
   * One step of the loop. An existing user who is already admin staff is
   * left untouched, which is the same as promoting them again.
   */
  function Promote(users: Users, id: UserId): (r: Users)
    ensures r.Keys == users.Keys + {id}
    ensures forall k | k in users && k != id :: r[k] == users[k]
    ensures r[id] == if id in users then Promoted(users[id]) else NewAdmin(id)
  {
    if id !in users then users[id := NewAdmin(id)]
    else if !users[id].isStaff || users[id].role != Admin then users[id := Promoted(users[id])]
    else users
  }

  /** The users table after the loop has processed `ids` in order. */
  function Setup(users: Users, ids: seq<UserId>): Users
    decreases |ids|
  {
    if ids == [] then users else Promote(Setup(users, ids[..|ids| - 1]), ids[|ids| - 1])
  }

  /** The ids a list mentions. */
  function ListedIds(ids: seq<UserId>): (r: set<UserId>)
    ensures forall k :: k in r <==> k in ids
  {
    set i | i in ids
  }

  /** What the loop leaves under id `k`, for a `k` that is listed or already known. */
  function Entry(users: Users, ids: seq<UserId>, k: UserId): User
    requires k in users || k in ids
  {
    if k in ids then (if k in users then Promoted(users[k]) else NewAdmin(k)) else users[k]
  }

  /**
   * The same table described entry by entry: listed ids are promoted or
   * created, everyone else is as before.
   */
  function Expected(users: Users, ids: seq<UserId>): (r: Users)
    ensures r.Keys == users.Keys + ListedIds(ids)
    ensures forall k | k in r :: r[k] == Entry(users, ids, k)
  {
    map k | k in users.Keys + ListedIds(ids) :: Entry(users, ids, k)
  }

  /** The entry under `k` after one more step of the loop, for the id `last`. */
  lemma PromoteEntry(users: Users, init: seq<UserId>, last: UserId, k: UserId)
    requires k in users || k in init || k == last
    ensures k in Promote(Expected(users, init), last)
    ensures Promote(Expected(users, init), last)[k] == Entry(users, init + [last], k)
  {
    assert k in init + [last] <==> k in init || k == last;
    if k == last && k in users {
      assert Promoted(Promoted(users[k])) == Promoted(users[k]);
    } else if k == last && k in init {
      assert Promoted(NewAdmin(k)) == NewAdmin(k);
    }
  }

  lemma ListedIdsStep(init: seq<UserId>, last: UserId)
    ensures ListedIds(init + [last]) == ListedIds(init) + {last}
  {
    assert forall k :: k in init + [last] <==> k in init || k == last;
  }

  /** One more step of the loop extends the entry-by-entry description by one id. */
  lemma PromoteExtends(users: Users, init: seq<UserId>, last: UserId)
    ensures Promote(Expected(users, init), last) == Expected(users, init + [last])
  {
    var after := Promote(Expected(users, init), last);
    var want := Expected(users, init + [last]);
    assert after.Keys == want.Keys by {
      ListedIdsStep(init, last);
    }
    assert forall k | k in want :: after[k] == want[k] by {
      forall k | k in want
        ensures after[k] == want[k]
      {
        PromoteEntry(users, init, last, k);
      }
    }
  }

  lemma {:induction false} SetupIsExpected(users: Users, ids: seq<UserId>)
    ensures Setup(users, ids) == Expected(users, ids)
    decreases |ids|
  {
    if ids != [] {
      var init, last := ids[..|ids| - 1], ids[|ids| - 1];
      assert ids == init + [last];
      calc {
        Setup(users, ids);
        Promote(Setup(users, init), last);
        { SetupIsExpected(users, init); }
        Promote(Expected(users, init), last);
        { PromoteExtends(users, init, last); }
        Expected(users, ids);
      }
    }
  }

  /** The loop invariant's step: processing `ids[i]` extends the processed prefix by one. */
  lemma SetupStep(users: Users, ids: seq<UserId>, i: nat)
    requires i < |ids|
    ensures Setup(users, ids[..i + 1]) == Promote(Setup(users, ids[..i]), ids[i])
  {
    assert ids[..i + 1][..i] == ids[..i];
  }

  /** A bootstrap step keeps the store consistent: a created user is stored under its own id with empty drafts. */
  lemma PromoteKeepsConsistent(db: Db, id: UserId)
    requires Consistent(db)
    ensures Consistent(db.(users := Promote(db.users, id)))
  {
  }

  datatype SetupReply = NoAdminIds | SetupComplete

  /** The bootstrap run over the configured ids; an empty list ends it at once. */
  method SetupStaffUsers(s: Store, ids: seq<UserId>) returns (r: SetupReply)
    requires s.Valid()
    modifies s
    ensures s.Valid()
    ensures r == NoAdminIds <==> ids == []
    ensures s.users == Setup(old(s.users), ids) && s.tickets == old(s.tickets) && s.outbox == old(s.outbox)
  {
    if |ids| == 0 {
      return NoAdminIds;
    }
    for i := 0 to |ids|
      invariant s.Valid()
      invariant s.users == Setup(old(s.users), ids[..i])
      invariant s.tickets == old(s.tickets) && s.outbox == old(s.outbox)
    {
      var id := ids[i];
      ghost var before := s.users;
      if id !in s.users {
        s.users := s.users[id := NewAdmin(id)];
      } else {
        var user := s.users[id];
        if !user.isStaff || user.role != Admin {
          s.users := s.users[id := Promoted(user)];
        }
      }
      assert s.users == Promote(before, id);
      PromoteKeepsConsistent(Db(before, s.tickets), id);
      SetupStep(old(s.users), ids, i);
    }
    assert ids[..|ids|] == ids;
    r := SetupComplete;
  }

  // ---------------------------------------------------------------------------
  // Properties of the bootstrap
  // ---------------------------------------------------------------------------

  /**
   * Afterwards every listed id is admin staff; an existing user keeps every
   * other field; a created one is named `admin_<id>`; unlisted users are
   * unchanged and no user disappears.
   */
  lemma SetupOutcome(users: Users, ids: seq<UserId>)
    ensures var r := Setup(users, ids);
      && (forall k :: k in r <==> k in users || k in ids)
      && (forall k | k in ids :: r[k].isStaff && r[k].role == Admin)
      && (forall k | k in ids && k in users :: r[k] == users[k].(isStaff := true, role := Admin))
      && (forall k | k in ids && k !in users :: r[k].username == Some("admin_" + IntToString(k)))
      && (forall k | k in users && k !in ids :: r[k] == users[k])
  {
    SetupIsExpected(users, ids);
  }

  /** An empty list changes nothing. */
  lemma EmptyListIsNoOp(users: Users)
    ensures Setup(users, []) == users
  {
  }

  /** Running the bootstrap a second time with the same list changes nothing. */
  lemma SetupIdempotent(users: Users, ids: seq<UserId>)
    ensures Setup(Setup(users, ids), ids) == Setup(users, ids)
  {
    SetupIsExpected(users, ids);
    SetupIsExpected(Setup(users, ids), ids);
    var once := Setup(users, ids);
    var twice := Setup(once, ids);
    forall k | k in twice
      ensures twice[k] == once[k]
    {
      if k in ids && k in users {
        assert Promoted(Promoted(users[k])) == Promoted(users[k]);
      }
    }
  }

  /** The outcome depends only on which ids are listed, not on their order or repetition. */
  lemma SetupOrderIrrelevant(users: Users, ids: seq<UserId>, ids': seq<UserId>)
    requires forall i :: i in ids <==> i in ids'
    ensures Setup(users, ids) == Setup(users, ids')
  {
    SetupIsExpected(users, ids);
    SetupIsExpected(users, ids');
    var a, b := Expected(users, ids), Expected(users, ids');
    assert a.Keys == b.Keys;
    forall k | k in a
      ensures a[k] == b[k]
    {
      assert Entry(users, ids, k) == Entry(users, ids', k);
    }
  }
}
