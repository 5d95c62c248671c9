/** What each token transaction writes, row by row, and what that means for every token of a
    run: its lifetime, its owner and the reach of a revocation. */
module TokenEffects {
  import opened Basics
  import opened RefreshTokens

  /** A new login inserts one token of its own family, valid for 30 days. */
  lemma IssueExactly(s: Store, user: UserId, family: FamilyId, hash: Hash, now: int)
    ensures var s' := Issue(s, user, family, hash, now);
            if hash in s.rows || family in s.line then s' == s
            else s'.rows == s.rows[hash := Row(user, family, now + 2592000000, false, false, None)]
  {
  }

  /** What a rotation writes: consumed and succeeded by a token of the same user and family,
      valid for 30 days from now, when it is accepted; every token of the family revoked, and
      no other row touched, when the token was consumed before; nothing otherwise. */
  lemma RotateExactly(s: Store, hash: Hash, next: Hash, now: int, users: set<UserId>)
    ensures var (s', reply) := Rotate(s, hash, next, now, users);
            if hash in s.rows && now < s.rows[hash].expires && !s.rows[hash].revoked && !s.rows[hash].consumed
               && next !in s.rows && s.rows[hash].user in users then
              && var found := s.rows[hash];
              && reply == Rotated(next, found.user)
              && s'.rows == s.rows[hash := Row(found.user, found.family, found.expires, true, false, Some(next))]
                                  [next := Row(found.user, found.family, now + 2592000000, false, false, None)]
            else if hash in s.rows && now < s.rows[hash].expires && !s.rows[hash].revoked && s.rows[hash].consumed then
              && reply == Refused && s'.rows.Keys == s.rows.Keys
              && forall h <- s.rows ::
                   s'.rows[h] == s.rows[h].(revoked := s.rows[h].revoked || s.rows[h].family == s.rows[hash].family)
            else
              && s' == s && (reply == Refused || reply == Threw)
              && (reply == Threw ==> hash in s.rows && (next in s.rows || s.rows[hash].user !in users))
  {
  }

  lemma RevokesExactly(s: Store, hash: Hash, user: UserId)
    ensures var s' := Revoke(s, hash);
            s'.rows.Keys == s.rows.Keys
            && forall h <- s.rows :: s'.rows[h] == s.rows[h].(revoked := s.rows[h].revoked || h == hash)
    ensures var s' := RevokeAll(s, user);
            s'.rows.Keys == s.rows.Keys
            && forall h <- s.rows :: s'.rows[h] == s.rows[h].(revoked := s.rows[h].revoked || s.rows[h].user == user)
  {
  }

  // ---- over a whole run ----

  lemma Later(events: seq<Event>, e: Event, later: seq<Event>)
    ensures var s := Step(After(EMPTY, events), e); Ok(s) && Extends(s, After(s, later))
  {
    hide Ok, Extends, Step, After;
    EmptyOk();
    AfterKeeps(EMPTY, events);
    StepKeeps(After(EMPTY, events), e);
    AfterKeeps(Step(After(EMPTY, events), e), later);
  }

  lemma Inserted(s: Store, e: Event, h: Hash)
    requires h !in s.rows && h in Step(s, e).rows
    ensures match e
            case Issued(user, family, hash, now) =>
              h == hash && Step(s, e).rows[h] == Row(user, family, now + 2592000000, false, false, None)
            case Rotating(hash, next, now, users) =>
              && h == next && hash in s.rows
              && Step(s, e).rows[h] == Row(s.rows[hash].user, s.rows[hash].family, now + 2592000000, false, false, None)
            case _ => false
  {
  }

  /** Whatever happens after a token was inserted, it is accepted only within 30 days of that
      moment and only for the user it was made for: the user who logged in, or the owner of
      the token it replaced. */
  lemma AcceptedWithin30Days(events: seq<Event>, e: Event, hash: Hash, later: seq<Event>, next: Hash, now: int,
                             users: set<UserId>)
    requires var s := After(EMPTY, events); hash !in s.rows && hash in Step(s, e).rows
    ensures var s := After(EMPTY, events);
            var reply := Rotate(After(Step(s, e), later), hash, next, now, users).1;
            reply.Rotated? ==>
              match e
              case Issued(user, family, h, at) => now < at + 2592000000 && reply.user == user && h == hash
              case Rotating(h, _, at, _) => now < at + 2592000000 && h in s.rows && reply.user == s.rows[h].user
              case _ => false
  {
    var s := After(EMPTY, events);
    Later(events, e, later);
    Inserted(s, e, hash);
    hide Ok, Step, After;
    RotateExactly(After(Step(s, e), later), hash, next, now, users);
    hide Rotate;
  }

  /** A token revoked on its own, or with all of its user's tokens, is refused ever after. */
  lemma RevokedForGood(events: seq<Event>, e: Event, later: seq<Event>, hash: Hash, next: Hash, now: int, users: set<UserId>)
    requires var s := After(EMPTY, events); hash in s.rows && (e == Revoked(hash) || e == AllRevoked(s.rows[hash].user))
    ensures var s' := After(Step(After(EMPTY, events), e), later);
            Rotate(s', hash, next, now, users) == (s', Refused)
  {
    var s := After(EMPTY, events);
    Later(events, e, later);
    RevokesExactly(s, hash, s.rows[hash].user);
    hide Ok, After;
    assert Step(s, e).rows[hash].revoked;
  }

  /** Nobody else is affected: revoking one user's tokens, and detecting a reuse in one family,
      leave the live tokens of other users and families live. */
  lemma OthersStayLive(s: Store, e: Event, h: Hash)
    requires Live(s, h)
    ensures var s' := Step(s, e);
            match e
            case Issued(_, _, _, _) => Live(s', h)
            case Rotating(hash, _, _, _) => (hash in s.rows && s.rows[hash].family == s.rows[h].family) || Live(s', h)
            case Revoked(hash) => hash == h || Live(s', h)
            case AllRevoked(user) => s.rows[h].user == user || Live(s', h)
  {
  }
}
