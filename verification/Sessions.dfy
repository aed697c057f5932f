// host/internal/proxy/session.go: short-lived proxy credentials in two indexes over shared mutable
// sessions, with lazy purging, against a plain ledger of everything that was ever issued.
// Times are nanoseconds; randomness, the clock and the password hash are inputs.
module Sessions {
  import opened Options

  const SESSION_TTL: int := 600_000_000_000 // 10 minutes

  // What callers see of a session: a copy, without the revoked mark.
  datatype Cred = Cred(
    id: string, agentID: string, agentName: string, username: string, createdBy: nat,
    createdAt: int, expiresAt: int, passwordHash: string)

  datatype IssueError = RandomFailed | IdTaken | NamesTaken
  datatype Issued = Issued(cred: Cred, password: string) | Refused(error: IssueError)

  // ----- The ledger: the simple form -----

  datatype Entry = Entry(cred: Cred, revoked: bool)
  type Ledger = seq<Entry>

  // A credential works from its issue until it is revoked or its window ends.
  predicate Live(e: Entry, now: int) {
    !e.revoked && now < e.cred.expiresAt
  }

  ghost predicate LiveId(book: Ledger, id: string, now: int) {
    exists k :: 0 <= k < |book| && Live(book[k], now) && book[k].cred.id == id
  }

  ghost predicate LiveName(book: Ledger, username: string, now: int) {
    exists k :: 0 <= k < |book| && Live(book[k], now) && book[k].cred.username == username
  }

  // The credential that a login is answered with.
  ghost predicate Admits(book: Ledger, username: string, hash: string, now: int, c: Cred) {
    exists k :: 0 <= k < |book| && Live(book[k], now) && book[k].cred == c
      && c.username == username && c.passwordHash == hash
  }

  function RevokeIn(book: Ledger, id: string, now: int): (r: Ledger)
    ensures |r| == |book|
    ensures forall k :: 0 <= k < |r| ==> r[k].cred == book[k].cred
    ensures forall k :: 0 <= k < |r| ==> (r[k].revoked <==> book[k].revoked || (Live(book[k], now) && book[k].cred.id == id))
  {
    if book == [] then []
    else
      var e := book[|book| - 1];
      RevokeIn(book[..|book| - 1], id, now) + [if Live(e, now) && e.cred.id == id then e.(revoked := true) else e]
  }

  // No two credentials that are live at the same time share an id or a username.
  ghost predicate Distinct(book: Ledger, now: int) {
    forall i, j :: 0 <= i < j < |book| && Live(book[i], now) && Live(book[j], now) ==>
      book[i].cred.id != book[j].cred.id && book[i].cred.username != book[j].cred.username
  }

  // ----- Runs of the ledger -----

  datatype Op =
    | OpIssue(c: Cred)   // a successful Issue
    | OpRevoke(id: string)
    | OpNothing          // Authenticate, List, a failed Issue: they change no entry

  datatype Timed = Timed(now: int, op: Op)

  ghost predicate Allowed(book: Ledger, t: Timed) {
    match t.op
    case OpIssue(c) =>
      c.createdAt == t.now && c.expiresAt == t.now + SESSION_TTL
      && !LiveId(book, c.id, t.now) && !LiveName(book, c.username, t.now)
    case _ => true
  }

  function Apply(book: Ledger, t: Timed): Ledger {
    match t.op
    case OpIssue(c) => book + [Entry(c, false)]
    case OpRevoke(id) => RevokeIn(book, id, t.now)
    case OpNothing => book
  }

  function RunOps(book: Ledger, ops: seq<Timed>): Ledger {
    if ops == [] then book else Apply(RunOps(book, ops[..|ops| - 1]), ops[|ops| - 1])
  }

  // Every operation is allowed where it happens, at times that never go back.
  ghost predicate ValidRun(book: Ledger, clock: int, ops: seq<Timed>) {
    ops == [] ||
      (var before := ops[..|ops| - 1];
       ValidRun(book, clock, before)
       && Now(clock, before) <= ops[|ops| - 1].now
       && Allowed(RunOps(book, before), ops[|ops| - 1]))
  }

  function Now(clock: int, ops: seq<Timed>): int {
    if ops == [] then clock else ops[|ops| - 1].now
  }

  // Time alone only removes live credentials.
  lemma DistinctLater(book: Ledger, now: int, later: int)
    requires Distinct(book, now) && now <= later
    ensures Distinct(book, later)
  {
    forall i, j | 0 <= i < j < |book| && Live(book[i], later) && Live(book[j], later)
      ensures book[i].cred.id != book[j].cred.id && book[i].cred.username != book[j].cred.username
    {
      assert Live(book[i], now) && Live(book[j], now);
    }
  }

  lemma ApplyKeepsDistinct(book: Ledger, t: Timed)
    requires Distinct(book, t.now) && Allowed(book, t)
    ensures Distinct(Apply(book, t), t.now)
  {
    var next := Apply(book, t);
    forall i, j | 0 <= i < j < |next| && Live(next[i], t.now) && Live(next[j], t.now)
      ensures next[i].cred.id != next[j].cred.id && next[i].cred.username != next[j].cred.username
    {
      assert Live(book[i], t.now);
      if j < |book| { assert Live(book[j], t.now); }
    }
  }

  // Over every run, live credentials never clash.
  lemma {:induction false} RunKeepsDistinct(book: Ledger, clock: int, ops: seq<Timed>)
    requires Distinct(book, clock) && ValidRun(book, clock, ops)
    ensures clock <= Now(clock, ops)
    ensures Distinct(RunOps(book, ops), Now(clock, ops))
  {
    if ops != [] {
      var before, last := ops[..|ops| - 1], ops[|ops| - 1];
      RunKeepsDistinct(book, clock, before);
      DistinctLater(RunOps(book, before), Now(clock, before), last.now);
      ApplyKeepsDistinct(RunOps(book, before), last);
    }
  }

  // One entry through a run: it keeps its place and its contents, and is revoked exactly by a
  // revocation of its id while it is live.
  lemma {:induction false} EntryThroughRun(book: Ledger, clock: int, ops: seq<Timed>, k: nat)
    requires k < |book| && ValidRun(book, clock, ops)
    ensures |book| <= |RunOps(book, ops)| && RunOps(book, ops)[k].cred == book[k].cred
    ensures forall i :: 0 <= i < |ops| ==> ops[i].now <= Now(clock, ops)
    ensures clock <= Now(clock, ops)
    ensures RunOps(book, ops)[k].revoked <==> book[k].revoked || RevokedBy(ops, book[k].cred)
  {
    if ops != [] {
      var before, last := ops[..|ops| - 1], ops[|ops| - 1];
      EntryThroughRun(book, clock, before, k);
      assert forall i :: 0 <= i < |before| ==> before[i] == ops[i];
      var c := book[k].cred;
      assert RevokedBy(before, c) ==> RevokedBy(ops, c);
      assert RevokedBy(ops, c) ==> RevokedBy(before, c) || Revokes(last, c);
      assert Revokes(last, c) ==> RevokedBy(ops, c) by { assert ops[|ops| - 1] == last; }
    }
  }

  predicate Revokes(t: Timed, c: Cred) {
    t.op == OpRevoke(c.id) && t.now < c.expiresAt
  }

  ghost predicate RevokedBy(ops: seq<Timed>, c: Cred) {
    exists i :: 0 <= i < |ops| && Revokes(ops[i], c)
  }

  // Entries are only ever added by issuing them.
  lemma {:induction false} EntriesAreIssued(book: Ledger, ops: seq<Timed>, k: nat)
    requires k < |RunOps(book, ops)|
    ensures k < |book| || exists i :: 0 <= i < |ops| && ops[i].op == OpIssue(RunOps(book, ops)[k].cred)
  {
    if ops != [] {
      var before, last := ops[..|ops| - 1], ops[|ops| - 1];
      if k < |RunOps(book, before)| {
        EntriesAreIssued(book, before, k);
        if k >= |book| {
          var i :| 0 <= i < |before| && before[i].op == OpIssue(RunOps(book, before)[k].cred);
          assert ops[i] == before[i];
        }
      } else {
        assert ops[|ops| - 1] == last;
      }
    }
  }

  // A credential's whole life, over any run that follows its issue. It is live exactly while its window
  // is open and its id has not been revoked. While it is live, a login under its username is answered
  // with this credential for its own password and refused for every other; afterwards it never admits
  // anyone again.
  lemma CredentialLife(book: Ledger, issue: Timed, ops: seq<Timed>, now: int)
    requires issue.op.OpIssue? && Distinct(book, issue.now) && Allowed(book, issue)
    requires ValidRun(Apply(book, issue), issue.now, ops) && Now(issue.now, ops) <= now
    ensures |book| < |RunOps(Apply(book, issue), ops)|
    ensures Live(RunOps(Apply(book, issue), ops)[|book|], now)
      <==> now < issue.now + 600_000_000_000 && !RevokedBy(ops, issue.op.c)
    ensures now < issue.op.c.expiresAt && !RevokedBy(ops, issue.op.c) ==>
      forall hash, d :: Admits(RunOps(Apply(book, issue), ops), issue.op.c.username, hash, now, d)
        <==> d == issue.op.c && hash == issue.op.c.passwordHash
    ensures (now >= issue.op.c.expiresAt || RevokedBy(ops, issue.op.c)) && IssuedOnce(book, ops, issue.op.c) ==>
      forall username, hash :: !Admits(RunOps(Apply(book, issue), ops), username, hash, now, issue.op.c)
  {
    var c, start := issue.op.c, Apply(book, issue);
    var end := RunOps(start, ops);
    ApplyKeepsDistinct(book, issue);
    RunKeepsDistinct(start, issue.now, ops);
    DistinctLater(end, Now(issue.now, ops), now);
    EntryThroughRun(start, issue.now, ops, |book|);
    if Live(end[|book|], now) {
      forall hash, d ensures Admits(end, c.username, hash, now, d) <==> d == c && hash == c.passwordHash {
        OnlyOwner(end, |book|, now, hash, d);
      }
    } else if IssuedOnce(book, ops, c) {
      forall username, hash ensures !Admits(end, username, hash, now, c) {
        if Admits(end, username, hash, now, c) {
          var k :| 0 <= k < |end| && Live(end[k], now) && end[k].cred == c;
          EntriesAreIssued(start, ops, k);
          EntryThroughRun(start, issue.now, ops, if k <= |book| then k else 0);
        }
      }
    }
  }

  // Chance did not produce the very same credential, id, name, password and instant, twice.
  ghost predicate IssuedOnce(book: Ledger, ops: seq<Timed>, c: Cred) {
    (forall k :: 0 <= k < |book| ==> book[k].cred != c) && (forall i :: 0 <= i < |ops| ==> ops[i].op != OpIssue(c))
  }

  lemma OnlyOwner(book: Ledger, k: nat, now: int, hash: string, d: Cred)
    requires Distinct(book, now) && k < |book| && Live(book[k], now)
    ensures Admits(book, book[k].cred.username, hash, now, d)
      <==> d == book[k].cred && hash == book[k].cred.passwordHash
  {
    if Admits(book, book[k].cred.username, hash, now, d) {
      var j :| 0 <= j < |book| && Live(book[j], now) && book[j].cred == d
        && d.username == book[k].cred.username && d.passwordHash == hash;
      assert j == k;
    }
  }

  // ----- The store: two indexes, purged lazily -----

  datatype Naming = Picked(name: string) | Failed(error: IssueError)

  predicate Taken(taken: set<string>, draw: Option<string>) {
    draw.Some? && "jp" + draw.value in taken
  }

  // The first drawn name that is free; a failed draw gives up at once.
  function PickName(taken: set<string>, draws: seq<Option<string>>): (r: Naming)
    ensures r == Failed(NamesTaken) <==> forall i :: 0 <= i < |draws| ==> Taken(taken, draws[i])
    ensures r != Failed(NamesTaken) ==>
      exists i :: 0 <= i < |draws| && (forall j :: 0 <= j < i ==> Taken(taken, draws[j])) && !Taken(taken, draws[i])
        && r == if draws[i].None? then Failed(RandomFailed) else Picked("jp" + draws[i].value)
  {
    if draws == [] then Failed(NamesTaken)
    else if draws[0].None? then Failed(RandomFailed)
    else if "jp" + draws[0].value !in taken then Picked("jp" + draws[0].value)
    else PickName(taken, draws[1..])
  }

  // ----- Ledger places of the indexed credentials -----

  // The two indexes, as places in the ledger: mutually inverse, holding nothing revoked, missing
  // nothing live.
  ghost predicate Indexes(rows: map<string, nat>, names: map<string, nat>, book: Ledger, clock: int) {
    && (forall id :: id in rows ==> Row(rows, names, book, id))
    && (forall name :: name in names ==> Name(rows, names, book, name))
    && (forall k :: 0 <= k < |book| && Live(book[k], clock) ==> book[k].cred.id in rows && rows[book[k].cred.id] == k)
  }

  ghost predicate Row(rows: map<string, nat>, names: map<string, nat>, book: Ledger, id: string)
    requires id in rows
  {
    && rows[id] < |book| && book[rows[id]].cred.id == id && !book[rows[id]].revoked
    && book[rows[id]].cred.username in names && names[book[rows[id]].cred.username] == rows[id]
  }

  ghost predicate Name(rows: map<string, nat>, names: map<string, nat>, book: Ledger, name: string)
    requires name in names
  {
    && names[name] < |book| && book[names[name]].cred.username == name
    && book[names[name]].cred.id in rows && rows[book[names[name]].cred.id] == names[name]
  }

  lemma IndexesLater(rows: map<string, nat>, names: map<string, nat>, book: Ledger, clock: int, later: int)
    requires Indexes(rows, names, book, clock) && clock <= later
    ensures Indexes(rows, names, book, later)
  {
    assert forall k :: 0 <= k < |book| && Live(book[k], later) ==> Live(book[k], clock);
  }

  // Dropping a dead credential from both indexes keeps them consistent.
  lemma IndexesDrop(rows: map<string, nat>, names: map<string, nat>, book: Ledger, clock: int, id: string)
    requires Indexes(rows, names, book, clock) && id in rows && !Live(book[rows[id]], clock)
    ensures Indexes(rows - {id}, names - {book[rows[id]].cred.username}, book, clock)
  {
    hide Live;
    var name := book[rows[id]].cred.username;
    var rows', names' := rows - {id}, names - {name};
    assert Row(rows, names, book, id);
    forall i | i in rows' ensures Row(rows', names', book, i) { assert Row(rows, names, book, i); }
    forall n | n in names' ensures Name(rows', names', book, n) {
      assert Name(rows, names, book, n);
    }
  }

  lemma IndexesAdd(rows: map<string, nat>, names: map<string, nat>, book: Ledger, clock: int, c: Cred)
    requires Indexes(rows, names, book, clock) && c.id !in rows && c.username !in names
    ensures Indexes(rows[c.id := |book|], names[c.username := |book|], book + [Entry(c, false)], clock)
  {
    hide Live;
    var rows', names', book' := rows[c.id := |book|], names[c.username := |book|], book + [Entry(c, false)];
    forall i | i in rows' ensures Row(rows', names', book', i) {
      if i != c.id { assert Row(rows, names, book, i); }
    }
    forall n | n in names' ensures Name(rows', names', book', n) {
      if n != c.username { assert Name(rows, names, book, n); }
    }
  }

  lemma IndexesRevoke(rows: map<string, nat>, names: map<string, nat>, book: Ledger, clock: int, id: string)
    requires Indexes(rows, names, book, clock) && id in rows && Live(book[rows[id]], clock)
    ensures Indexes(rows - {id}, names - {book[rows[id]].cred.username}, RevokeIn(book, id, clock), clock)
    ensures LiveId(book, id, clock)
    ensures forall k :: 0 <= k < |book| && k != rows[id] ==> RevokeIn(book, id, clock)[k] == book[k]
  {
    hide RevokeIn;
    var after := RevokeIn(book, id, clock);
    forall k | 0 <= k < |book| && k != rows[id] ensures after[k] == book[k] {}
    var name := book[rows[id]].cred.username;
    var rows', names' := rows - {id}, names - {name};
    assert Row(rows, names, book, id);
    forall i | i in rows' ensures Row(rows', names', after, i) { assert Row(rows, names, book, i); }
    forall n | n in names' ensures Name(rows', names', after, n) { assert Name(rows, names, book, n); }
  }

  lemma RevokeMissing(rows: map<string, nat>, names: map<string, nat>, book: Ledger, clock: int, id: string)
    requires Indexes(rows, names, book, clock) && (id in rows ==> !Live(book[rows[id]], clock))
    ensures RevokeIn(book, id, clock) == book && !LiveId(book, id, clock)
  {
    hide RevokeIn;
    assert id in rows ==> Row(rows, names, book, id);
  }

  // Once nothing indexed is dead, the indexes hold exactly the live credentials.
  lemma IndexesLive(rows: map<string, nat>, names: map<string, nat>, book: Ledger, clock: int)
    requires Indexes(rows, names, book, clock)
    requires forall id :: id in rows ==> clock < book[rows[id]].cred.expiresAt
    ensures forall id :: id in rows <==> LiveId(book, id, clock)
    ensures forall name :: name in names <==> LiveName(book, name, clock)
    ensures forall k :: 0 <= k < |book| && Live(book[k], clock) ==>
      book[k].cred.id in rows && rows[book[k].cred.id] == k
    ensures forall id :: id in rows ==> Live(book[rows[id]], clock) && book[rows[id]].cred.id == id
  {
    forall id | id in rows ensures Live(book[rows[id]], clock) && book[rows[id]].cred.id == id {
      assert Row(rows, names, book, id);
    }
    forall name | LiveName(book, name, clock) ensures name in names {
      var k :| 0 <= k < |book| && Live(book[k], clock) && book[k].cred.username == name;
      assert Row(rows, names, book, book[k].cred.id);
    }
    forall name | name in names ensures LiveName(book, name, clock) {
      assert Name(rows, names, book, name);
    }
  }

  class Session {
    const id: string
    const agentID: string
    const agentName: string
    const createdBy: nat
    const createdAt: int
    const expiresAt: int
    const passwordHash: string
    var username: string
    var revoked: bool
    ghost var place: nat // where the ledger keeps it

    constructor (id: string, agentID: string, agentName: string, createdBy: nat, createdAt: int, passwordHash: string)
      ensures this.id == id && this.agentID == agentID && this.agentName == agentName && this.createdBy == createdBy
      ensures this.createdAt == createdAt && expiresAt == createdAt + SESSION_TTL
      ensures this.passwordHash == passwordHash && username == "" && !revoked
    {
      this.id, this.agentID, this.agentName, this.createdBy := id, agentID, agentName, createdBy;
      this.createdAt, expiresAt, this.passwordHash := createdAt, createdAt + SESSION_TTL, passwordHash;
      username, revoked := "", false;
    }

    lemma CopyHolds()
      requires !revoked
      ensures Holds(Entry(Copy(), false), id) && Copy().id == id && Copy().username == username
    {
    }

    ghost predicate Holds(e: Entry, id: string)
      reads this
    {
      e == Entry(Copy(), false) && !revoked && this.id == id
    }

    function Copy(): Cred
      reads this
    {
      Cred(id, agentID, agentName, username, createdBy, createdAt, expiresAt, passwordHash)
    }
  }

  // Both indexes lead to the same session objects.
  ghost predicate Linked(byID: map<string, Session>, byUser: map<string, Session>,
                         names: map<string, nat>, book: Ledger)
    requires names.Keys == byUser.Keys
  {
    forall name :: name in byUser ==> Same(byID, byUser, names, book, name)
  }

  ghost predicate Same(byID: map<string, Session>, byUser: map<string, Session>, names: map<string, nat>,
                       book: Ledger, name: string)
    requires name in byUser && names.Keys == byUser.Keys
  {
    names[name] < |book| && book[names[name]].cred.id in byID && byUser[name] == byID[book[names[name]].cred.id]
  }

  lemma LinkedAdd(byID: map<string, Session>, byUser: map<string, Session>,
                  names: map<string, nat>, book: Ledger, sess: Session, e: Entry)
    requires names.Keys == byUser.Keys && Linked(byID, byUser, names, book) && e.cred.id !in byID && e.cred.username !in byUser
    ensures Linked(byID[e.cred.id := sess], byUser[e.cred.username := sess],
                   names[e.cred.username := |book|], book + [e])
  {
    var id, n := e.cred.id, e.cred.username;
    var byUser', names' := byUser[n := sess], names[n := |book|];
    forall name | name in byUser' ensures Same(byID[id := sess], byUser', names', book + [e], name) {
      if name != n { assert Same(byID, byUser, names, book, name); }
    }
  }

  lemma LinkedDrop(byID: map<string, Session>, byUser: map<string, Session>,
                   names: map<string, nat>, book: Ledger, after: Ledger, id: string, n: string)
    requires names.Keys == byUser.Keys && Linked(byID, byUser, names, book)
    requires |after| == |book| && forall k :: 0 <= k < |book| ==> after[k].cred == book[k].cred
    requires forall name :: name in byUser && name != n ==> names[name] < |book| && book[names[name]].cred.id != id
    ensures Linked(byID - {id}, byUser - {n}, names - {n}, after)
  {
    forall name | name in byUser - {n}
      ensures Same(byID - {id}, byUser - {n}, names - {n}, after, name)
    {
      assert Same(byID, byUser, names, book, name);
    }
  }

  // Every indexed session is the entry at its place.
  ghost predicate Hold(byID: map<string, Session>, rows: map<string, nat>, book: Ledger)
    requires rows.Keys == byID.Keys
    reads byID.Values
  {
    forall id :: id in byID ==> rows[id] < |book| && byID[id].Holds(book[rows[id]], id)
  }

  lemma HoldMore(byID: map<string, Session>, rows: map<string, nat>, book: Ledger, sess: Session, e: Entry)
    requires rows.Keys == byID.Keys && Hold(byID, rows, book) && sess.Holds(e, sess.id) && sess.id !in byID
    ensures Hold(byID[sess.id := sess], rows[sess.id := |book|], book + [e])
  {
    hide Session.Holds;
  }

  class Store {
    const hash: string -> string // SHA-256 in hexadecimal
    var byID: map<string, Session>
    var byUser: map<string, Session>
    ghost var book: Ledger
    ghost var rows: map<string, nat> // byID and byUser, as places in the ledger
    ghost var names: map<string, nat>
    ghost var clock: int

    ghost predicate Valid()
      reads this, byID.Values
    {
      Indexes(rows, names, book, clock) && Mirrored()
    }

    ghost predicate Mirrored()
      reads this, byID.Values
    {
      && rows.Keys == byID.Keys && names.Keys == byUser.Keys
      && Linked(byID, byUser, names, book) && AllHold()
    }

    ghost predicate AllHold()
      requires rows.Keys == byID.Keys
      reads this, byID.Values
    {
      Hold(byID, rows, book)
    }

    constructor (hash: string -> string, ghost now: int)
      ensures Valid() && this.hash == hash && book == [] && clock == now
    {
      this.hash, byID, byUser, book, clock := hash, map[], map[], [], now;
      rows, names := map[], map[];
    }

    // The two deletions by which a session leaves the indexes.
    method Unindex(id: string)
      requires Valid() && id in byID && clock >= byID[id].expiresAt
      modifies this
      ensures Valid() && book == old(book) && clock == old(clock) && byID == old(byID) - {id}
    {
      hide Indexes, Linked, Session.Holds, Session.Copy;
      var sess := byID[id];
      InIndexes(id);
      IndexesDrop(rows, names, book, clock, id);
      LinkedDrop(byID, byUser, names, book, book, id, sess.username);
      byID := byID - {id};
      DropName(sess);
      rows, names := rows - {id}, names - {sess.username};
    }

    method DropName(sess: Session)
      requires sess.username in byUser && byUser[sess.username] == sess
      modifies this`byUser
      ensures byUser == old(byUser) - {sess.username}
    {
      if sess.username in byUser && byUser[sess.username] == sess {
        byUser := byUser - {sess.username};
      }
    }

    // An indexed session is found under its name, and under no other.
    lemma InIndexes(id: string)
      requires Valid() && id in byID
      ensures byID[id].username in byUser && byUser[byID[id].username] == byID[id]
      ensures forall name :: name in byUser && byUser[name] == byID[id] ==> name == byID[id].username
      ensures rows[id] < |book| && book[rows[id]].cred.username == byID[id].username
      ensures book[rows[id]].cred.expiresAt == byID[id].expiresAt
      ensures forall name :: name in byUser && name != byID[id].username ==>
        names[name] < |book| && book[names[name]].cred.id != id
    {
      assert Row(rows, names, book, id);
      forall name | name in byUser ensures Name(rows, names, book, name) {}
    }

    // Time passes; nothing else changes.
    ghost method Tick(now: int)
      requires Valid() && clock <= now
      modifies this`clock
      ensures Valid() && clock == now
    {
      IndexesLater(rows, names, book, clock, now);
      hide Indexes, Session.Holds, Session.Copy;
      clock := now;
    }

    // One session of the purge's sweep.
    method PurgeOne(id: string, now: int)
      requires Valid() && clock == now && id in byID
      modifies this
      ensures Valid() && clock == now && book == old(book)
      ensures byID == if now < old(byID)[id].expiresAt then old(byID) else old(byID) - {id}
    {
      NotRevoked(id);
      hide Valid;
      if byID[id].revoked || now >= byID[id].expiresAt {
        Unindex(id);
      }
    }

    // purgeLocked: what has expired leaves both indexes.
    method PurgeLocked(now: int)
      requires Valid() && clock <= now
      modifies this
      ensures Valid() && clock == now && book == old(book) && byID.Keys <= old(byID).Keys
      ensures forall id :: id in old(byID) ==> (id in byID <==> now < old(byID)[id].expiresAt)
      ensures forall id :: id in byID ==> byID[id] == old(byID)[id]
    {
      hide *;
      Tick(now);
      var todo := byID.Keys;
      while todo != {}
        invariant todo <= byID.Keys <= old(byID).Keys && clock == now && book == old(book)
        invariant forall id :: id in byID ==> byID[id] == old(byID)[id]
        invariant forall id :: id in old(byID).Keys - todo ==> (id in byID <==> now < old(byID)[id].expiresAt)
        invariant Valid()
      {
        var id :| id in todo;
        PurgeOne(id, now);
        todo := todo - {id};
      }
    }

    lemma NotRevoked(id: string)
      requires Valid() && id in byID
      ensures !byID[id].revoked
    {
    }

    // Right after a purge the indexes hold exactly the live credentials.
    lemma Purged()
      requires Valid() && forall id :: id in byID ==> clock < byID[id].expiresAt
      ensures forall id :: id in byID <==> LiveId(book, id, clock)
      ensures byUser.Keys == LiveNames(book, clock)
      ensures forall name :: name in byUser <==> LiveName(book, name, clock)
      ensures forall id :: id in byID ==> byID[id].id == id
      ensures forall c :: InBook(book, c, clock) <==> c.id in byID && c == byID[c.id].Copy()
    {
      forall id | id in byID ensures rows[id] < |book| && book[rows[id]].cred == byID[id].Copy() {}
      IndexesLive(rows, names, book, clock);
    }

    // The loop over the drawn names.
    method PickUsername(draws: seq<Option<string>>) returns (r: Naming)
      requires |draws| == 5
      ensures r == PickName(byUser.Keys, draws)
    {
      var i := 0;
      assert draws[0..] == draws;
      while i < 5
        invariant 0 <= i <= 5
        invariant PickName(byUser.Keys, draws) == PickName(byUser.Keys, draws[i..])
      {
        assert draws[i..][1..] == draws[i + 1..];
        if draws[i].None? { return Failed(RandomFailed); }
        var username := "jp" + draws[i].value;
        if username !in byUser { return Picked(username); }
        i := i + 1;
      }
      return Failed(NamesTaken);
    }

    // The two insertions by which a session becomes a credential.
    method Index(sess: Session)
      requires Valid() && sess.id !in byID && sess.username !in byUser && !sess.revoked
      modifies this
      ensures Valid() && clock == old(clock) && book == old(book) + [Entry(sess.Copy(), false)]
    {
      hide Indexes, Linked, Session.Copy, Session.Holds, Hold;
      ghost var e := Entry(sess.Copy(), false);
      sess.CopyHolds();
      HoldMore(byID, rows, book, sess, e);
      IndexesAdd(rows, names, book, clock, e.cred);
      LinkedAdd(byID, byUser, names, book, sess, e);
      byID := byID[sess.id := sess];
      byUser := byUser[sess.username := sess];
      rows, names := rows[sess.id := |book|], names[sess.username := |book|];
      book := book + [e];
    }

    // Issue draws a password, an id and up to five names. It either adds exactly one credential, good for
    // ten minutes, whose id and name no live credential has, or adds nothing and loses nothing.
    method Issue(agentID: string, agentName: string, userID: nat, now: int,
                 password: Option<string>, id: Option<string>, draws: seq<Option<string>>)
      returns (r: Issued)
      requires Valid() && clock <= now && |draws| == 5
      modifies this
      ensures Valid() && old(clock) <= clock <= now
      ensures r == IssueOutcome(old(book), agentID, agentName, userID, now, password, id, draws, hash)
      ensures r.Refused? ==> book == old(book)
      ensures r.Issued? ==> Allowed(old(book), Timed(now, OpIssue(r.cred)))
      ensures r.Issued? ==> book == Apply(old(book), Timed(now, OpIssue(r.cred)))
    {
      hide Valid, LiveId, LiveName, LiveNames, PickName;
      if password.None? || id.None? { return Refused(RandomFailed); }
      var sess := new Session(id.value, agentID, agentName, userID, now, hash(password.value));
      PurgeLocked(now);
      Purged();
      if sess.id in byID { return Refused(IdTaken); }
      var naming := PickUsername(draws);
      if naming.Failed? { return Refused(naming.error); }
      sess.username := naming.name;
      Index(sess);
      return Issued(sess.Copy(), password.value);
    }

    // A copy of the live credential with this name and this password, if there is one; whatever else was
    // purged, issued or revoked makes no difference.
    method Authenticate(username: string, password: string, now: int) returns (r: Option<Cred>)
      requires Valid() && clock <= now
      ensures r.Some? ==> Admits(book, username, hash(password), now, r.value)
      ensures r.None? ==> forall c :: !Admits(book, username, hash(password), now, c)
    {
      var got := hash(password);
      Found(username, now);
      if username !in byUser { return None; }
      var sess := byUser[username];
      if sess.revoked || now >= sess.expiresAt { return None; }
      if got != sess.passwordHash { return None; }
      return Some(sess.Copy());
    }

    lemma Found(username: string, now: int)
      requires Valid() && clock <= now
      ensures username in byUser ==>
        && names[username] < |book| && book[names[username]] == Entry(byUser[username].Copy(), false)
        && !byUser[username].revoked && byUser[username].username == username
      ensures forall k :: 0 <= k < |book| && Live(book[k], now) && book[k].cred.username == username ==>
        username in byUser && names[username] == k
    {
      if username in byUser { assert Name(rows, names, book, username) && Same(byID, byUser, names, book, username); }
      forall k | 0 <= k < |book| && Live(book[k], now) && book[k].cred.username == username
        ensures username in byUser && names[username] == k
      {
        assert Live(book[k], clock);
        assert Row(rows, names, book, book[k].cred.id);
      }
    }

    // Exactly the live credentials, each once, the soonest to expire first.
    method List(now: int) returns (out: seq<Cred>)
      requires Valid() && clock <= now
      modifies this
      ensures Valid() && clock == now && book == old(book)
      ensures forall c :: c in out <==> InBook(book, c, now)
      ensures forall i, j :: 0 <= i < j < |out| ==> out[i].id != out[j].id
      ensures SortedByExpiry(out)
    {
      hide Valid, LiveId, LiveName, InBook;
      PurgeLocked(now);
      Purged();
      out := CopyAll();
      ghost var all := out;
      out := SortByExpiry(out);
      SameElements(all, out);
    }

    // The loop that copies the sessions out of the index.
    method CopyAll() returns (out: seq<Cred>)
      requires forall id :: id in byID ==> byID[id].id == id
      ensures forall c :: c in out <==> c.id in byID && c == byID[c.id].Copy()
      ensures forall i, j :: 0 <= i < j < |out| ==> out[i].id != out[j].id
    {
      out := [];
      var todo := byID.Keys;
      while todo != {}
        invariant todo <= byID.Keys
        invariant forall c :: c in out <==> c.id in byID && c.id !in todo && c == byID[c.id].Copy()
        invariant forall i, j :: 0 <= i < j < |out| ==> out[i].id != out[j].id
        decreases todo
      {
        var id :| id in todo;
        assert forall c :: c in out ==> c.id != id;
        out := out + [byID[id].Copy()];
        todo := todo - {id};
      }
    }

    // True exactly when a live credential has this id; that credential is dead from here on.
    method Revoke(id: string, now: int) returns (ok: bool)
      requires Valid() && clock <= now
      modifies this, byID.Values
      ensures Valid() && clock == now
      ensures ok <==> LiveId(old(book), id, now)
      ensures book == Apply(old(book), Timed(now, OpRevoke(id)))
    {
      hide Indexes, Linked, Session.Copy, RevokeIn, LiveId;
      Tick(now);
      if id !in byID || byID[id].revoked || now >= byID[id].expiresAt {
        Missing(id);
        return false;
      }
      RevokeIndexed(byID[id]);
      return true;
    }

    lemma Missing(id: string)
      requires Valid() && (id !in byID || byID[id].revoked || clock >= byID[id].expiresAt)
      ensures RevokeIn(book, id, clock) == book && !LiveId(book, id, clock)
    {
      hide LiveId, RevokeIn, Linked;
      RevokeMissing(rows, names, book, clock, id);
    }

    method RevokeIndexed(sess: Session)
      requires Valid() && sess.id in byID && byID[sess.id] == sess && clock < sess.expiresAt
      modifies this, sess
      ensures Valid() && clock == old(clock)
      ensures LiveId(old(book), sess.id, clock) && book == RevokeIn(old(book), sess.id, clock)
    {
      hide Indexes, Linked, Session.Copy, Session.Holds, RevokeIn, LiveId;
      InIndexes(sess.id);
      Others(sess.id);
      IndexesRevoke(rows, names, book, clock, sess.id);
      LinkedDrop(byID, byUser, names, book, RevokeIn(book, sess.id, clock), sess.id, sess.username);
      sess.revoked := true;
      assert forall i :: i in byID && i != sess.id ==> byID[i].Holds(book[rows[i]], i);
      byID := byID - {sess.id};
      DropName(sess);
      RecordRevocation(sess);
    }

    // What the revocation means to the ledger.
    ghost method RecordRevocation(sess: Session)
      requires sess.id in rows && byID.Keys == rows.Keys - {sess.id} && byUser.Keys == names.Keys - {sess.username}
      requires forall i :: i in byID ==> rows[i] < |book| && rows[i] != rows[sess.id] && byID[i].Holds(book[rows[i]], i)
      requires Linked(byID, byUser, names - {sess.username}, RevokeIn(book, sess.id, clock))
      requires Indexes(rows - {sess.id}, names - {sess.username}, RevokeIn(book, sess.id, clock), clock)
      requires forall k :: 0 <= k < |book| && k != rows[sess.id] ==> RevokeIn(book, sess.id, clock)[k] == book[k]
      modifies this`book, this`rows, this`names
      ensures Valid() && book == RevokeIn(old(book), sess.id, clock)
    {
      hide Indexes, Linked, Session.Copy, Session.Holds, RevokeIn;
      book := RevokeIn(book, sess.id, clock);
      rows, names := rows - {sess.id}, names - {sess.username};
    }

    // Every indexed session but one is another object, at another place.
    lemma Others(id: string)
      requires Valid() && id in byID
      ensures forall i :: i in byID && i != id ==> byID[i] != byID[id] && rows[i] != rows[id]
      ensures rows[id] < |book| && book[rows[id]] == Entry(byID[id].Copy(), false)
    {
      forall i | i in byID && i != id ensures byID[i] != byID[id] && rows[i] != rows[id] {
        assert Row(rows, names, book, i) && Row(rows, names, book, id);
        assert byID[i].Holds(book[rows[i]], i) && byID[id].Holds(book[rows[id]], id);
      }
    }
  }

  ghost function LiveNames(book: Ledger, now: int): set<string> {
    set k | 0 <= k < |book| && Live(book[k], now) :: book[k].cred.username
  }

  // What Issue answers, in terms of the live credentials alone.
  ghost function IssueOutcome(book: Ledger, agentID: string, agentName: string, userID: nat, now: int,
                              password: Option<string>, id: Option<string>, draws: seq<Option<string>>,
                              hash: string -> string): Issued
  {
    if password.None? || id.None? then Refused(RandomFailed)
    else if LiveId(book, id.value, now) then Refused(IdTaken)
    else match PickName(LiveNames(book, now), draws)
      case Failed(e) => Refused(e)
      case Picked(name) => Issued(
        Cred(id.value, agentID, agentName, name, userID, now, now + SESSION_TTL, hash(password.value)), password.value)
  }

  // A session is issued exactly if its password and id could be drawn, no live credential has the id, and the
  // first of the five draws that fails or gives a free name gives one. It is good for ten minutes from now.
  lemma OutcomeMeaning(book: Ledger, agentID: string, agentName: string, userID: nat, now: int,
                       password: Option<string>, id: Option<string>, draws: seq<Option<string>>, hash: string -> string)
    ensures var r := IssueOutcome(book, agentID, agentName, userID, now, password, id, draws, hash);
            && (r.Issued? <==> password.Some? && id.Some? && !LiveId(book, id.value, now)
                               && exists i: nat :: FirstFree(book, now, draws, i) && draws[i].Some?)
            && (r == Refused(IdTaken) <==> password.Some? && id.Some? && LiveId(book, id.value, now))
            && (r == Refused(NamesTaken) <==> password.Some? && id.Some? && !LiveId(book, id.value, now)
                                              && forall i: nat :: !FirstFree(book, now, draws, i))
            && (r.Issued? ==>
                  && r.password == password.value && r.cred.passwordHash == hash(password.value) && r.cred.id == id.value
                  && r.cred.agentID == agentID && r.cred.agentName == agentName && r.cred.createdBy == userID
                  && r.cred.createdAt == now && r.cred.expiresAt == now + 600_000_000_000
                  && exists i: nat :: FirstFree(book, now, draws, i) && draws[i] == Some(r.cred.username[2..])
                                      && r.cred.username == "jp" + r.cred.username[2..])
  {
    hide PickName, LiveId;
    NamesLive(book, now);
    DrawnName(book, now, draws);
  }

  // All draws before the i-th gave a name that a live credential has, and the i-th did not.
  ghost predicate FirstFree(book: Ledger, now: int, draws: seq<Option<string>>, i: nat) {
    && i < |draws| && (draws[i].Some? ==> !LiveName(book, "jp" + draws[i].value, now))
    && forall j :: 0 <= j < i ==> draws[j].Some? && LiveName(book, "jp" + draws[j].value, now)
  }

  lemma NamesLive(book: Ledger, now: int)
    ensures forall name :: name in LiveNames(book, now) <==> LiveName(book, name, now)
  {
  }

  lemma {:induction false} DrawnName(book: Ledger, now: int, draws: seq<Option<string>>)
    ensures var r := PickName(LiveNames(book, now), draws);
            && (r == Failed(NamesTaken) <==> forall i: nat :: !FirstFree(book, now, draws, i))
            && (r.Failed? ==> r.error != IdTaken)
            && (r.Failed? ==> forall i: nat :: FirstFree(book, now, draws, i) ==> draws[i].None?)
            && (r.Picked? ==> exists i: nat :: FirstFree(book, now, draws, i) && draws[i].Some? && r.name == "jp" + draws[i].value)
  {
    hide LiveName, LiveNames;
    NamesLive(book, now);
    if draws != [] {
      var rest := draws[1..];
      DrawnName(book, now, rest);
      if Taken(LiveNames(book, now), draws[0]) {
        forall i: nat ensures FirstFree(book, now, draws, i) <==> i > 0 && FirstFree(book, now, rest, i - 1) {
          Shifted(book, now, draws, i);
        }
        assert forall i: nat :: FirstFree(book, now, rest, i) ==> FirstFree(book, now, draws, i + 1);
      } else {
        assert FirstFree(book, now, draws, 0);
        assert forall i: nat :: FirstFree(book, now, draws, i) ==> i == 0;
      }
    }
  }

  lemma Shifted(book: Ledger, now: int, draws: seq<Option<string>>, i: nat)
    requires draws != [] && draws[0].Some? && LiveName(book, "jp" + draws[0].value, now)
    ensures FirstFree(book, now, draws, i) <==> i > 0 && FirstFree(book, now, draws[1..], i - 1)
  {
    hide LiveName;
    if i > 0 {
      assert forall j :: 1 <= j < i && j < |draws| ==> draws[j] == draws[1..][j - 1];
      assert forall j :: 0 <= j < i - 1 && j < |draws| - 1 ==> draws[1..][j] == draws[j + 1];
    }
  }

  ghost predicate InBook(book: Ledger, c: Cred, now: int) {
    exists k :: 0 <= k < |book| && Live(book[k], now) && book[k].cred == c
  }

  predicate SortedByExpiry(s: seq<Cred>) {
    forall i, j :: 0 <= i < j < |s| ==> s[i].expiresAt <= s[j].expiresAt
  }

  lemma SameElements(a: seq<Cred>, b: seq<Cred>)
    requires multiset(a) == multiset(b) && forall i, j :: 0 <= i < j < |a| ==> a[i].id != a[j].id
    ensures forall c :: c in a <==> c in b
    ensures forall i, j :: 0 <= i < j < |b| ==> b[i].id != b[j].id
  {
    forall c ensures c in a <==> c in b { assert c in a <==> c in multiset(a); }
    forall i, j | 0 <= i < j < |b| ensures b[i].id != b[j].id {
      assert b[i] in a && b[j] in a;
      OnlyOnce(a, b[i]);
      if b[i] == b[j] { Twice(b, i, j); }
    }
  }

  lemma Twice(b: seq<Cred>, i: nat, j: nat)
    requires i < j < |b| && b[i] == b[j]
    ensures multiset(b)[b[i]] >= 2
  {
    assert b == b[..i] + [b[i]] + b[i + 1..j] + [b[j]] + b[j + 1..];
  }

  lemma {:induction false} OnlyOnce(a: seq<Cred>, c: Cred)
    requires forall i, j :: 0 <= i < j < |a| ==> a[i].id != a[j].id
    ensures multiset(a)[c] <= 1
  {
    if a != [] {
      var front := a[..|a| - 1];
      assert a == front + [a[|a| - 1]];
      OnlyOnce(front, c);
      if a[|a| - 1] == c { assert forall i :: 0 <= i < |front| ==> front[i] != c; }
    }
  }

  // sort.Slice by expiry; how ties fall is the library's choice.
  method SortByExpiry(s: seq<Cred>) returns (r: seq<Cred>)
    ensures multiset(r) == multiset(s) && SortedByExpiry(r)
  {
    r := [];
    for i := 0 to |s|
      invariant multiset(r) == multiset(s[..i]) && SortedByExpiry(r)
    {
      assert s[..i + 1] == s[..i] + [s[i]];
      r := InsertByExpiry(r, s[i]);
    }
    assert s[..|s|] == s;
  }

  method InsertByExpiry(s: seq<Cred>, c: Cred) returns (r: seq<Cred>)
    requires SortedByExpiry(s)
    ensures multiset(r) == multiset(s) + multiset{c} && SortedByExpiry(r)
  {
    var j := |s|;
    while j > 0 && c.expiresAt < s[j - 1].expiresAt
      invariant 0 <= j <= |s| && (j < |s| ==> c.expiresAt < s[j].expiresAt)
    {
      j := j - 1;
    }
    InsertAt(s, j, c);
    r := s[..j] + [c] + s[j..];
  }

  lemma InsertAt(s: seq<Cred>, j: nat, c: Cred)
    requires SortedByExpiry(s) && j <= |s|
    requires j < |s| ==> c.expiresAt < s[j].expiresAt
    requires j > 0 ==> s[j - 1].expiresAt <= c.expiresAt
    ensures SortedByExpiry(s[..j] + [c] + s[j..])
    ensures multiset(s[..j] + [c] + s[j..]) == multiset(s) + multiset{c}
  {
    InsertSorted(s, j, c);
    InsertMultiset(s, j, c);
  }

  lemma InsertMultiset<T>(s: seq<T>, j: nat, x: T)
    requires j <= |s|
    ensures multiset(s[..j] + [x] + s[j..]) == multiset(s) + multiset{x}
  {
    assert s == s[..j] + s[j..];
    assert multiset(s[..j] + [x]) == multiset(s[..j]) + multiset{x};
  }

  lemma InsertSorted(s: seq<Cred>, j: nat, c: Cred)
    requires SortedByExpiry(s) && j <= |s|
    requires j < |s| ==> c.expiresAt < s[j].expiresAt
    requires j > 0 ==> s[j - 1].expiresAt <= c.expiresAt
    ensures SortedByExpiry(s[..j] + [c] + s[j..])
  {
    var r := s[..j] + [c] + s[j..];
    forall a, b | 0 <= a < b < |r| ensures r[a].expiresAt <= r[b].expiresAt {
      var a', b' := if a <= j then a else a - 1, if b <= j then b else b - 1;
      assert a != j ==> r[a] == s[a'];
      assert b != j ==> r[b] == s[b'];
      assert j > 0 && a < j ==> s[a].expiresAt <= s[j - 1].expiresAt;
      assert j < |s| && b > j ==> s[j].expiresAt <= s[b'].expiresAt;
    }
  }
}
