/** models/AuthToken.js: refresh-token rotation with reuse detection, the pattern of section
    5.2.2.3 of RFC 6819. Each transaction is one atomic step. */
module RefreshTokens {
  import opened Basics

  type Hash = nat
  type FamilyId = nat
  type UserId = nat

  datatype Row = Row(
    user: UserId, family: FamilyId, expires: int, consumed: bool, revoked: bool, replacedBy: Option<Hash>)

  /** `line` (history): the tokens ever inserted in a family, in order; `reused` (history):
      families in which a rotation found a consumed token. */
  datatype Store = Store(rows: map<Hash, Row>, line: map<FamilyId, seq<Hash>>, reused: set<FamilyId>)

  /** rotateRefreshToken returns null, throws after ROLLBACK, or returns the new token. */
  datatype Rotation = Refused | Threw | Rotated(next: Hash, user: UserId)

  /** The default of services/tokens.js: 30 days. */
  const REFRESH_MAX_AGE_MS: int := 30 * 86400000

  function RevokeFamily(rows: map<Hash, Row>, family: FamilyId): map<Hash, Row> {
    map h | h in rows :: if rows[h].family == family then rows[h].(revoked := true) else rows[h]
  }

  function RevokeUser(rows: map<Hash, Row>, user: UserId): map<Hash, Row> {
    map h | h in rows :: if rows[h].user == user then rows[h].(revoked := true) else rows[h]
  }

  /** issueRefreshToken for a new family; UNIQUE(token_hash) refuses a known hash. */
  function Issue(s: Store, user: UserId, family: FamilyId, hash: Hash, now: int): Store {
    if hash in s.rows || family in s.line then s
    else s.(rows := s.rows[hash := Row(user, family, now + REFRESH_MAX_AGE_MS, false, false, None)],
            line := s.line[family := [hash]])
  }

  /** rotateRefreshToken: `next` is the fresh hash, `users` the users that exist. */
  function Rotate(s: Store, hash: Hash, next: Hash, now: int, users: set<UserId>): (Store, Rotation) {
    if hash !in s.rows || s.rows[hash].expires <= now || s.rows[hash].revoked then (s, Refused)
    else
      var found := s.rows[hash];
      if found.consumed then
        (s.(rows := RevokeFamily(s.rows, found.family), reused := s.reused + {found.family}), Refused)
      else if next in s.rows || found.user !in users then (s, Threw)
      else
        var row := Row(found.user, found.family, now + REFRESH_MAX_AGE_MS, false, false, None);
        var line := if found.family in s.line then s.line[found.family] else [];
        (s.(rows := s.rows[hash := found.(consumed := true, replacedBy := Some(next))][next := row],
            line := s.line[found.family := line + [next]]),
         Rotated(next, found.user))
  }

  function Revoke(s: Store, hash: Hash): Store {
    if hash in s.rows then s.(rows := s.rows[hash := s.rows[hash].(revoked := true)]) else s
  }

  function RevokeAll(s: Store, user: UserId): Store {
    s.(rows := RevokeUser(s.rows, user))
  }

  datatype Event =
    | Issued(user: UserId, family: FamilyId, hash: Hash, now: int)
    | Rotating(hash: Hash, next: Hash, now: int, users: set<UserId>)
    | Revoked(hash: Hash)
    | AllRevoked(user: UserId)

  function Step(s: Store, e: Event): Store {
    match e
    case Issued(user, family, hash, now) => Issue(s, user, family, hash, now)
    case Rotating(hash, next, now, users) => Rotate(s, hash, next, now, users).0
    case Revoked(hash) => Revoke(s, hash)
    case AllRevoked(user) => RevokeAll(s, user)
  }

  const EMPTY := Store(map[], map[], {})

  function After(s: Store, events: seq<Event>): Store {
    if events == [] then s else Step(After(s, events[..|events| - 1]), events[|events| - 1])
  }

  // ---- the invariant ----

  /** The i-th token of a family's chain: consumed and naming its successor, unless last. */
  ghost predicate LinkOk(rows: map<Hash, Row>, family: FamilyId, line: seq<Hash>, i: nat)
    requires i < |line|
  {
    && line[i] in rows && line[0] in rows
    && var row := rows[line[i]];
    && row.family == family && row.user == rows[line[0]].user
    && if i == |line| - 1 then !row.consumed && row.replacedBy.None?
       else row.consumed && row.replacedBy == Some(line[i + 1])
  }

  /** The tokens of a family form one replacement chain of one user. */
  ghost predicate LineOk(rows: map<Hash, Row>, family: FamilyId, line: seq<Hash>) {
    && line != []
    && (forall i :: 0 <= i < |line| ==> LinkOk(rows, family, line, i))
    && (forall i, j :: 0 <= i < j < |line| ==> line[i] != line[j])
  }

  ghost predicate Ok(s: Store) {
    && (forall f <- s.line :: LineOk(s.rows, f, s.line[f]))
    && (forall h <- s.rows :: s.rows[h].family in s.line && h in s.line[s.rows[h].family])
    && (forall f <- s.reused :: f in s.line && forall h <- s.rows :: s.rows[h].family == f ==> s.rows[h].revoked)
  }

  /** A token that could still be rotated, were it not expired. */
  predicate Live(s: Store, hash: Hash) {
    hash in s.rows && !s.rows[hash].consumed && !s.rows[hash].revoked
  }

  /** Marks never come off, owners and expiry times stay, nothing is deleted, chains and
      detections only grow. */
  ghost predicate Extends(s: Store, s': Store) {
    && (forall h <- s.rows :: h in s'.rows && s'.rows[h].family == s.rows[h].family
          && s'.rows[h].user == s.rows[h].user && s'.rows[h].expires == s.rows[h].expires
          && (s.rows[h].revoked ==> s'.rows[h].revoked) && (s.rows[h].consumed ==> s'.rows[h].consumed))
    && (forall f <- s.line :: f in s'.line && s.line[f] <= s'.line[f])
    && s.reused <= s'.reused
  }

  /** Only revocation marks differ. */
  ghost predicate MoreRevoked(s: Store, s': Store) {
    && s'.rows.Keys == s.rows.Keys && s'.line == s.line
    && forall h <- s.rows :: s'.rows[h] == s.rows[h].(revoked := s'.rows[h].revoked)
         && (s.rows[h].revoked ==> s'.rows[h].revoked)
  }

  lemma LineRevoked(s: Store, s': Store, f: FamilyId)
    requires MoreRevoked(s, s') && f in s.line && LineOk(s.rows, f, s.line[f])
    ensures LineOk(s'.rows, f, s.line[f])
  {
    forall i | 0 <= i < |s.line[f]| ensures LinkOk(s'.rows, f, s.line[f], i) {
      assert LinkOk(s.rows, f, s.line[f], i);
    }
  }

  lemma MoreRevokedKeeps(s: Store, s': Store)
    requires Ok(s) && MoreRevoked(s, s')
    requires s.reused <= s'.reused
    requires forall f <- s'.reused :: f in s.line && (f !in s.reused ==>
               forall h <- s'.rows :: s'.rows[h].family == f ==> s'.rows[h].revoked)
    ensures Ok(s') && Extends(s, s')
  {
    forall f <- s'.line ensures LineOk(s'.rows, f, s'.line[f]) {
      LineRevoked(s, s', f);
    }
    hide LineOk;
  }

  lemma LineElsewhere(rows: map<Hash, Row>, rows': map<Hash, Row>, f: FamilyId, line: seq<Hash>)
    requires LineOk(rows, f, line)
    requires forall h <- rows :: rows[h].family == f ==> h in rows' && rows'[h] == rows[h]
    ensures LineOk(rows', f, line)
  {
    assert LinkOk(rows, f, line, 0);
    forall i | 0 <= i < |line| ensures LinkOk(rows', f, line, i) {
      assert LinkOk(rows, f, line, i);
    }
  }

  lemma IssueLines(s: Store, user: UserId, family: FamilyId, hash: Hash, now: int)
    requires Ok(s)
    ensures var s' := Issue(s, user, family, hash, now); forall f <- s'.line :: LineOk(s'.rows, f, s'.line[f])
  {
    var s' := Issue(s, user, family, hash, now);
    forall f <- s'.line ensures LineOk(s'.rows, f, s'.line[f]) {
      if f in s.line {
        LineElsewhere(s.rows, s'.rows, f, s.line[f]);
      }
    }
  }

  lemma IssueKeeps(s: Store, user: UserId, family: FamilyId, hash: Hash, now: int)
    requires Ok(s)
    ensures Ok(Issue(s, user, family, hash, now)) && Extends(s, Issue(s, user, family, hash, now))
  {
    hide LineOk;
    IssueLines(s, user, family, hash, now);
  }

  /** Only the last token of a line is unconsumed. */
  lemma UnconsumedIsLast(s: Store, hash: Hash)
    requires Ok(s) && hash in s.rows && !s.rows[hash].consumed
    ensures s.rows[hash].family in s.line && s.line[s.rows[hash].family] != []
    ensures hash == s.line[s.rows[hash].family][|s.line[s.rows[hash].family]| - 1]
  {
    var f := s.rows[hash].family;
    var line := s.line[f];
    var i :| 0 <= i < |line| && line[i] == hash;
    assert LineOk(s.rows, f, line);
    assert LinkOk(s.rows, f, line, i);
  }

  /** The store after a successful rotation. */
  ghost predicate RotatedInto(s: Store, s': Store, hash: Hash, next: Hash, expires: int) {
    && hash in s.rows && next !in s.rows && !s.rows[hash].consumed && !s.rows[hash].revoked
    && var row := s.rows[hash];
    && row.family in s.line
    && s' == s.(rows := s.rows[hash := row.(consumed := true, replacedBy := Some(next))]
                              [next := Row(row.user, row.family, expires, false, false, None)],
                line := s.line[row.family := s.line[row.family] + [next]])
  }

  lemma RotatedLine(s: Store, s': Store, hash: Hash, next: Hash, expires: int)
    requires Ok(s) && RotatedInto(s, s', hash, next, expires)
    ensures LineOk(s'.rows, s.rows[hash].family, s'.line[s.rows[hash].family])
  {
    var f := s.rows[hash].family;
    var line, line' := s.line[f], s'.line[f];
    UnconsumedIsLast(s, hash);
    assert LineOk(s.rows, f, line);
    forall i | 0 <= i < |line| ensures line[i] in s.rows && line[i] != next {
      assert LinkOk(s.rows, f, line, i);
    }
    forall i | 0 <= i < |line'| ensures LinkOk(s'.rows, f, line', i) {
      assert LinkOk(s.rows, f, line, 0);
      if i < |line| {
        assert LinkOk(s.rows, f, line, i);
      } else {
        assert LinkOk(s.rows, f, line, |line| - 1);
      }
    }
  }

  lemma RotatedRest(s: Store, s': Store, hash: Hash, next: Hash, expires: int)
    requires Ok(s) && RotatedInto(s, s', hash, next, expires)
    ensures forall h <- s'.rows :: s'.rows[h].family in s'.line && h in s'.line[s'.rows[h].family]
    ensures forall f <- s'.reused :: f in s'.line && forall h <- s'.rows :: s'.rows[h].family == f ==> s'.rows[h].revoked
    ensures Extends(s, s')
  {
    hide LineOk;
    assert s.rows[hash].family !in s.reused;
  }

  lemma RotatedKeeps(s: Store, s': Store, hash: Hash, next: Hash, expires: int)
    requires Ok(s) && RotatedInto(s, s', hash, next, expires)
    ensures Ok(s') && Extends(s, s')
  {
    hide LineOk, Extends;
    RotatedLine(s, s', hash, next, expires);
    RotatedRest(s, s', hash, next, expires);
    forall f <- s'.line ensures LineOk(s'.rows, f, s'.line[f]) {
      if f != s.rows[hash].family {
        LineElsewhere(s.rows, s'.rows, f, s.line[f]);
      }
    }
  }

  lemma RotateKeeps(s: Store, hash: Hash, next: Hash, now: int, users: set<UserId>)
    requires Ok(s)
    ensures Ok(Rotate(s, hash, next, now, users).0) && Extends(s, Rotate(s, hash, next, now, users).0)
  {
    var (s', reply) := Rotate(s, hash, next, now, users);
    FamilyKnown(s, hash);
    hide Ok, Extends;
    if reply.Rotated? {
      RotatedKeeps(s, s', hash, next, now + REFRESH_MAX_AGE_MS);
    } else if s' != s {
      ReusedKnown(s);
      MoreRevokedKeeps(s, s');
    } else {
      ExtendsSelf(s);
    }
  }

  lemma FamilyKnown(s: Store, hash: Hash)
    requires Ok(s)
    ensures hash in s.rows ==> s.rows[hash].family in s.line
  {
  }

  lemma StepKeeps(s: Store, e: Event)
    requires Ok(s)
    ensures Ok(Step(s, e)) && Extends(s, Step(s, e))
  {
    hide Ok, Extends, Issue, Rotate;
    match e
    case Issued(user, family, hash, now) => IssueKeeps(s, user, family, hash, now);
    case Rotating(hash, next, now, users) => RotateKeeps(s, hash, next, now, users);
    case Revoked(hash) => ReusedKnown(s); MoreRevokedKeeps(s, Revoke(s, hash));
    case AllRevoked(user) => ReusedKnown(s); MoreRevokedKeeps(s, RevokeAll(s, user));
  }

  lemma ReusedKnown(s: Store)
    requires Ok(s)
    ensures forall f <- s.reused :: f in s.line
  {
  }

  lemma ExtendsTransitive(a: Store, b: Store, c: Store)
    requires Extends(a, b) && Extends(b, c)
    ensures Extends(a, c)
  {
  }

  lemma {:induction false} AfterKeeps(s: Store, events: seq<Event>)
    requires Ok(s)
    ensures Ok(After(s, events)) && Extends(s, After(s, events))
  {
    hide Ok, Step, Extends;
    if events == [] {
      ExtendsSelf(s);
    } else {
      var front := events[..|events| - 1];
      AfterKeeps(s, front);
      StepKeeps(After(s, front), events[|events| - 1]);
      ExtendsTransitive(s, After(s, front), After(s, events));
    }
  }

  lemma ExtendsSelf(s: Store)
    ensures Extends(s, s)
  {
  }

  lemma EmptyOk()
    ensures Ok(EMPTY)
  {
  }

  // ---- the theorems ----

  /** In an Ok store each token of a chain but the last names its successor. */
  lemma ChainLinks(s: Store, f: FamilyId)
    requires Ok(s) && f in s.line
    ensures s.line[f] != []
    ensures forall i :: 0 <= i < |s.line[f]| - 1 ==>
              s.line[f][i] in s.rows && s.rows[s.line[f][i]].replacedBy == Some(s.line[f][i + 1])
  {
    var line := s.line[f];
    assert LineOk(s.rows, f, line);
    forall i | 0 <= i < |line| - 1
      ensures line[i] in s.rows && s.rows[line[i]].replacedBy == Some(line[i + 1])
    {
      assert LinkOk(s.rows, f, line, i);
    }
  }

  /** After any events every family is one replacement chain, in order of insertion, and at
      most one of its tokens is live: the last. */
  lemma OneLiveTokenPerFamily(events: seq<Event>, h: Hash, h': Hash)
    requires var s := After(EMPTY, events);
             Live(s, h) && Live(s, h') && s.rows[h].family == s.rows[h'].family
    ensures h == h'
    ensures var s := After(EMPTY, events);
            var f := s.rows[h].family;
            && f in s.line && s.line[f] != [] && h == s.line[f][|s.line[f]| - 1]
            && forall i :: 0 <= i < |s.line[f]| - 1 ==>
                 s.line[f][i] in s.rows && s.rows[s.line[f][i]].replacedBy == Some(s.line[f][i + 1])
  {
    EmptyOk();
    AfterKeeps(EMPTY, events);
    var s := After(EMPTY, events);
    UnconsumedIsLast(s, h);
    UnconsumedIsLast(s, h');
    ChainLinks(s, s.rows[h].family);
    hide After, Ok;
  }

  /** Once an unexpired, unrevoked, consumed token is presented, no token of its family - old
      or new - is ever accepted again, whatever happens afterwards. */
  lemma ReuseEndsFamily(events: seq<Event>, stolen: Hash, x: Hash, when: int, who: set<UserId>,
                        later: seq<Event>, hash: Hash, next: Hash, now: int, users: set<UserId>)
    requires var s := After(EMPTY, events);
             stolen in s.rows && s.rows[stolen].consumed && !s.rows[stolen].revoked && s.rows[stolen].expires > when
    requires var s := After(EMPTY, events);
             var s' := After(Rotate(s, stolen, x, when, who).0, later);
             hash in s'.rows && s'.rows[hash].family == s.rows[stolen].family
    ensures var s' := After(Rotate(After(EMPTY, events), stolen, x, when, who).0, later);
            Rotate(s', hash, next, now, users) == (s', Refused) && !Live(s', hash)
  {
    EmptyOk();
    AfterKeeps(EMPTY, events);
    var s := After(EMPTY, events);
    var (s1, _) := Rotate(s, stolen, x, when, who);
    RotateKeeps(s, stolen, x, when, who);
    AfterKeeps(s1, later);
    assert s.rows[stolen].family in s1.reused;
    hide LineOk;
  }

  /** Replaying a consumed token leaves its family without a live token exactly when the
      replayed token is neither expired nor itself revoked, or the family had none left: an
      expired or individually revoked one is refused before reuse is looked at. */
  lemma ReplayDetectedExactlyWhen(s: Store, hash: Hash, next: Hash, now: int, users: set<UserId>)
    requires Ok(s) && hash in s.rows && s.rows[hash].consumed
    ensures var (s', reply) := Rotate(s, hash, next, now, users);
            var f := s.rows[hash].family;
            && reply == Refused
            && ((forall h <- s'.rows :: s'.rows[h].family == f ==> !Live(s', h)) <==>
                 (s.rows[hash].expires > now && !s.rows[hash].revoked) || !Live(s, LastOf(s, f)))
  {
    var f := s.rows[hash].family;
    var line, tail := s.line[f], LastOf(s, f);
    assert LineOk(s.rows, f, line);
    assert LinkOk(s.rows, f, line, |line| - 1);
    forall h <- s.rows | s.rows[h].family == f && Live(s, h) ensures h == tail {
      UnconsumedIsLast(s, h);
    }
    hide Ok, LineOk;
  }

  /** Two replays that go unnoticed: the consumed token 10 has expired, or was itself revoked;
      its successor 11 stays live and still rotates. */
  lemma ReplaysUnnoticed()
    ensures var s := After(EMPTY, [Issued(7, 1, 10, 0), Rotating(10, 11, REFRESH_MAX_AGE_MS - 1, {7})]);
            Unnoticed(s, 10, 11, REFRESH_MAX_AGE_MS)
    ensures var s := After(EMPTY, [Issued(7, 1, 10, 0), Rotating(10, 11, 1, {7}), Revoked(10)]);
            Unnoticed(s, 10, 11, 2)
  {
    var issued := [Issued(7, 1, 10, 0)];
    var first := Row(7, 1, REFRESH_MAX_AGE_MS, false, false, None);
    assert After(EMPTY, issued) == Store(map[10 := first], map[1 := [10]], {}) by {
      assert issued[..0] == [];
    }
    assert [10] + [11] == [10, 11];
    var late, soon := Rotating(10, 11, REFRESH_MAX_AGE_MS - 1, {7}), Rotating(10, 11, 1, {7});
    assert [issued[0], late][..1] == issued && [issued[0], soon][..1] == issued;
    var used := first.(consumed := true, replacedBy := Some(11));
    assert After(EMPTY, [issued[0], late]) == Store(
        map[10 := used, 11 := Row(7, 1, 2 * REFRESH_MAX_AGE_MS - 1, false, false, None)], map[1 := [10, 11]], {});
    assert After(EMPTY, [issued[0], soon]) == Store(
        map[10 := used, 11 := Row(7, 1, 1 + REFRESH_MAX_AGE_MS, false, false, None)], map[1 := [10, 11]], {});
    assert [issued[0], soon, Revoked(10)][..2] == [issued[0], soon];
  }

  /** The consumed token is presented and refused, nothing changes, and its family's live
      token can still be rotated. */
  predicate Unnoticed(s: Store, consumed: Hash, live: Hash, now: int) {
    && consumed in s.rows && live in s.rows && s.rows[consumed].family == s.rows[live].family
    && s.rows[consumed].consumed && Live(s, live)
    && Rotate(s, consumed, 99, now, {7}) == (s, Refused)
    && Rotate(s, live, 99, now, {7}).1 == Rotated(99, 7)
  }

  function LastOf(s: Store, f: FamilyId): Hash {
    if f in s.line && s.line[f] != [] then s.line[f][|s.line[f]| - 1] else 0
  }

  /** A rotation succeeds exactly for a live, unexpired token of an existing user (given a
      fresh hash) and throws exactly when that user is gone; a success consumes that token and
      the new one is the family's only live token. */
  lemma RotationSucceedsExactlyWhen(s: Store, hash: Hash, next: Hash, now: int, users: set<UserId>)
    requires Ok(s) && next !in s.rows
    ensures var (s', reply) := Rotate(s, hash, next, now, users);
            && (reply.Rotated? <==> Live(s, hash) && s.rows[hash].expires > now && s.rows[hash].user in users)
            && (reply.Threw? <==> Live(s, hash) && s.rows[hash].expires > now && s.rows[hash].user !in users)
            && (reply.Rotated? ==>
                 && reply == Rotated(next, s.rows[hash].user) && !Live(s', hash)
                 && forall h <- s'.rows :: s'.rows[h].family == s.rows[hash].family ==> (Live(s', h) <==> h == next))
  {
    var (s', reply) := Rotate(s, hash, next, now, users);
    if hash in s.rows && !s.rows[hash].consumed {
      UnconsumedIsLast(s, hash);
      forall h <- s.rows | s.rows[h].family == s.rows[hash].family && !s.rows[h].consumed ensures h == hash {
        UnconsumedIsLast(s, h);
      }
    }
    hide Ok;
  }

  // ---- the transactions as statements on a mutable table ----

  class TokenTable {
    var rows: map<Hash, Row>
    ghost var line: map<FamilyId, seq<Hash>>
    ghost var reused: set<FamilyId>

    ghost function Contents(): Store
      reads this
    {
      Store(rows, line, reused)
    }

    ghost predicate Valid()
      reads this
    {
      Ok(Contents())
    }

    constructor ()
      ensures Contents() == EMPTY && Valid()
    {
      rows, line, reused := map[], map[], {};
    }

    method RotateRefreshToken(hash: Hash, next: Hash, now: int, users: set<UserId>) returns (reply: Rotation)
      requires Valid()
      modifies this
      ensures Valid() && (Contents(), reply) == Rotate(old(Contents()), hash, next, now, users)
    {
      hide Ok;
      RotateKeeps(Contents(), hash, next, now, users);
      if hash !in rows || rows[hash].expires <= now || rows[hash].revoked { return Refused; }
      var found := rows[hash];
      if found.consumed {
        rows := RevokeFamily(rows, found.family);
        reused := reused + {found.family};
        return Refused;
      }
      var begin := rows;
      rows := rows[hash := found.(consumed := true, replacedBy := Some(next))];
      if next in begin || found.user !in users {
        rows := begin;
        return Threw;
      }
      rows := rows[next := Row(found.user, found.family, now + REFRESH_MAX_AGE_MS, false, false, None)];
      line := line[found.family := (if found.family in line then line[found.family] else []) + [next]];
      return Rotated(next, found.user);
    }
  }
}
