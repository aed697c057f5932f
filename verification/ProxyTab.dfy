// agent/internal/client/proxy.go: the objects of the probe's tunnel table, one method per critical
// section. The interleaving of these sections is module Agent.
module ProxyTab {
  import opened Options
  import opened Wire

  // ---- what each critical section does ----

  // The fields of a proxyTunnel, guarded by its mutex; the write channel is the queue of unread chunks.
  datatype Core<C> = Core(closed: bool, conn: Option<C>, writes: seq<Chunk>)

  // close: returns the connection the caller must close.
  function CloseCore<C>(t: Core<C>): (Core<C>, Option<C>) {
    if t.closed then (t, None) else (t.(closed := true), t.conn)
  }

  function SetConnCore<C>(t: Core<C>, conn: C): (Core<C>, bool) {
    if t.closed then (t, false) else (t.(conn := Some(conn)), true)
  }

  function EnqueueCore<C>(t: Core<C>, data: Chunk): (Core<C>, bool) {
    if t.closed || |t.writes| >= QUEUE_SIZE then (t, false) else (t.(writes := t.writes + [data]), true)
  }

  // The table section of dropIf: which entry leaves the table, if any.
  function DropEntry<R(==)>(tabs: map<Id, R>, id: Id, only: Option<R>): (map<Id, R>, Option<R>) {
    if id !in tabs || (only.Some? && tabs[id] != only.value) then (tabs, None)
    else (tabs - {id}, Some(tabs[id]))
  }

  // ---- the objects ----

  class Conn {
    var closed: bool
    constructor () ensures !closed { closed := false; }
    method Close()
      modifies this
      ensures closed
    {
      closed := true;
    }
  }

  class ProxyTunnel {
    var conn: Option<Conn>
    var writes: seq<Chunk>
    var closed: bool

    function St(): Core<Conn>
      reads this
    {
      Core(closed, conn, writes)
    }

    constructor ()
      ensures St() == Core(false, None, [])
    {
      conn, writes, closed := None, [], false;
    }

    method Close()
      modifies this, if conn.Some? then {conn.value} else {}
      ensures St() == CloseCore(old(St())).0
      ensures CloseCore(old(St())).1.Some? ==> CloseCore(old(St())).1.value.closed
    {
      if closed { return; }
      closed := true;
      var c := conn;
      if c.Some? { c.value.Close(); }
    }

    method SetConn(c: Conn) returns (ok: bool)
      modifies this
      ensures (St(), ok) == SetConnCore(old(St()), c)
    {
      if closed { return false; }
      conn := Some(c);
      return true;
    }

    method Enqueue(data: Chunk) returns (ok: bool)
      modifies this`writes
      ensures (St(), ok) == EnqueueCore(old(St()), data)
      ensures ok <==> !closed && |old(writes)| < 32
      ensures writes == if ok then old(writes) + [data] else old(writes)
    {
      if closed { return false; }
      ok := |writes| < QUEUE_SIZE;
      if ok { writes := writes + [data]; }
    }
  }

  class ProxyManager {
    var tabs: map<Id, ProxyTunnel>

    // Tunnels in the table are open and distinct.
    ghost predicate Valid()
      reads this, tabs.Values
    {
      && (forall id :: id in tabs ==> !tabs[id].closed)
      && (forall i, j :: i in tabs && j in tabs && i != j ==> tabs[i] != tabs[j])
    }

    ghost function Conns(): set<Conn>
      reads this, tabs.Values
    {
      set id | id in tabs && tabs[id].conn.Some? :: tabs[id].conn.value
    }

    constructor ()
      ensures Valid() && tabs == map[]
    {
      tabs := map[];
    }

    // The table section of open: a second open of a live id changes nothing.
    method Reserve(id: Id) returns (tab: Option<ProxyTunnel>)
      requires Valid()
      modifies this
      ensures Valid()
      ensures id in old(tabs) ==> tab == None && tabs == old(tabs)
      ensures id !in old(tabs) ==> tab.Some? && fresh(tab.value) && tabs == old(tabs)[id := tab.value]
    {
      if id in tabs { return None; }
      var t := new ProxyTunnel();
      tabs := tabs[id := t];
      tab := Some(t);
    }

    // dropIf: the entry leaves the table and is closed, together with its connection. A drop that
    // expects another tunnel than the one in the table changes nothing at all.
    method DropIf(id: Id, only: Option<ProxyTunnel>) returns (dropped: bool)
      requires Valid()
      modifies this, tabs.Values, Conns()
      ensures Valid()
      ensures tabs == DropEntry(old(tabs), id, only).0
      ensures dropped <==> id in old(tabs) && (only == None || only == Some(old(tabs)[id]))
      ensures tabs == if dropped then old(tabs) - {id} else old(tabs)
      ensures dropped ==> old(tabs)[id].closed && (old(tabs[id].conn).Some? ==> old(tabs[id].conn).value.closed)
      ensures forall j :: j in tabs ==> unchanged(tabs[j])
    {
      if id !in tabs || (only.Some? && tabs[id] != only.value) { return false; }
      var tab := tabs[id];
      tabs := tabs - {id};
      tab.Close();
      return true;
    }

    // dropAll: afterwards the table is empty and everything that was in it is closed.
    method DropAll()
      requires Valid()
      modifies this, tabs.Values, Conns()
      ensures Valid() && tabs == map[]
      ensures forall id :: id in old(tabs) ==> old(tabs)[id].closed
      ensures forall id :: id in old(tabs) && old(tabs[id].conn).Some? ==> old(tabs[id].conn).value.closed
    {
      var all := tabs;
      tabs := map[];
      var todo := all.Keys;
      while todo != {}
        invariant tabs == map[] && todo <= all.Keys
        invariant forall id :: id in all ==> all[id].conn == old(all[id].conn)
        invariant forall id :: id in all && id !in todo ==> all[id].closed
        invariant forall id :: id in all && id !in todo && all[id].conn.Some? ==> all[id].conn.value.closed
        invariant forall id :: id in todo ==> !all[id].closed
      {
        var id :| id in todo;
        todo := todo - {id};
        all[id].Close();
      }
    }
  }

  // ---- itoa ----

  function Digit(n: int): char
    requires 0 <= n < 10
  {
    ('0' as int + n) as char
  }

  function Decimal(n: nat): string {
    if n < 10 then [Digit(n)] else Decimal(n / 10) + [Digit(n % 10)]
  }

  // Reading digits from the left.
  function ReadDecimal(s: string): int {
    if s == "" then 0 else ReadDecimal(s[..|s| - 1]) * 10 + (s[|s| - 1] as int - '0' as int)
  }

  // The decimal form of n is digits only, has no leading zero, and reads n.
  lemma {:induction false} DecimalReads(n: nat)
    ensures ReadDecimal(Decimal(n)) == n
    ensures Decimal(n) != "" && (forall c :: c in Decimal(n) ==> '0' <= c <= '9') && (n > 0 ==> Decimal(n)[0] != '0')
  {
    if n >= 10 {
      DecimalReads(n / 10);
      assert Decimal(n)[..|Decimal(n)| - 1] == Decimal(n / 10);
    } else {
      assert Decimal(n)[..0] == "";
    }
  }

  // Port numbers never overrun the six-byte buffer, which is filled from its end.
  method Itoa(n: nat) returns (r: string)
    requires n <= 65535
    ensures r == Decimal(n)
  {
    if n == 0 { return "0"; }
    var b := new char[6](_ => '0');
    var i, m := b.Length, n;
    while m > 0
      invariant 0 <= i <= 6 && Fits(m, i)
      invariant m == 0 ==> b[i..] == Decimal(n)
      invariant m > 0 ==> Decimal(m) + b[i..] == Decimal(n)
      decreases m
    {
      i := i - 1;
      var rest := b[i + 1..];
      b[i] := Digit(m % 10);
      assert b[i..] == [Digit(m % 10)] + rest;
      if m >= 10 { assert Decimal(m / 10) + [Digit(m % 10)] + rest == Decimal(m / 10) + b[i..]; }
      m := m / 10;
    }
    r := b[i..];
  }

  // m still needs at most i digits.
  predicate Fits(m: nat, i: nat) {
    match i
    case 0 => m == 0
    case 1 => m < 10
    case 2 => m < 100
    case 3 => m < 1000
    case 4 => m < 10000
    case 5 => m < 100000
    case _ => m < 1000000
  }
}
