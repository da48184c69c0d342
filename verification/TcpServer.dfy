/**
 `TcpServer` keeps its connections by name, and builds each name in a buffer of 64 bytes. The
 table is a table of ids, as `ServerLifecycle` has it, for as long as names do not collide.
 */
module TcpServer {
  import SL = ServerLifecycle

  const INT_MAX := 0x7fff_ffff

  // ---- Names ---------------------------------------------------------------------------

  function Digit(d: nat): char
    requires d < 10
  {
    ['0', '1', '2', '3', '4', '5', '6', '7', '8', '9'][d]
  }

  /** `%d` of a number that is not negative. */
  function Decimal(n: nat): string {
    if n < 10 then [Digit(n)] else Decimal(n / 10) + [Digit(n % 10)]
  }

  /** `snprintf` into `buf`, which cuts what does not fit before the terminating zero. */
  function Suffix(ipPort: string, n: nat): string {
    var full := "-" + ipPort + "#" + Decimal(n);
    if |full| <= 63 then full else full[..63]
  }

  function ConnName(name: string, ipPort: string, n: nat): string {
    name + Suffix(ipPort, n)
  }

  /** How many digits the buffer has room for. */
  function Room(ipPort: string): int {
    61 - |ipPort|
  }

  ghost predicate Fits(ipPort: string, n: nat) {
    |Decimal(n)| <= Room(ipPort)
  }

  /** A numeral read back. */
  ghost function Value(s: string): int {
    if s == [] then 0 else Value(s[..|s| - 1]) * 10 + (s[|s| - 1] as int - '0' as int)
  }

  /** `Decimal` writes the decimal numeral, with digits only and no leading zero. */
  lemma {:induction false} DecimalReads(n: nat)
    ensures Value(Decimal(n)) == n
    ensures forall i :: 0 <= i < |Decimal(n)| ==> '0' <= Decimal(n)[i] <= '9'
    ensures Decimal(n)[0] == '0' ==> n == 0
  {
    var s := Decimal(n);
    DigitReads(n % 10);
    if n >= 10 {
      DecimalReads(n / 10);
      assert s[..|s| - 1] == Decimal(n / 10);
    } else {
      assert s[..|s| - 1] == [] && Value([]) == 0;
    }
  }

  lemma DigitReads(d: nat)
    requires d < 10
    ensures '0' <= Digit(d) <= '9' && Digit(d) as int - '0' as int == d
  {
  }

  /** A whole name. */
  lemma NameSample()
    ensures ConnName("srv", "10.0.0.1:80", 17) == "srv-10.0.0.1:80#17"
  {
    assert Decimal(17) == Decimal(1) + [Digit(7)] == "17";
  }

  lemma {:induction false} DecimalInjective(a: nat, b: nat)
    requires Decimal(a) == Decimal(b)
    ensures a == b
  {
    var x, y := Decimal(a), Decimal(b);
    assert x[|x| - 1] == Digit(a % 10) && y[|y| - 1] == Digit(b % 10);
    if a >= 10 && b >= 10 {
      assert x[..|x| - 1] == Decimal(a / 10) && y[..|y| - 1] == Decimal(b / 10);
      DecimalInjective(a / 10, b / 10);
    }
  }

  lemma {:induction false} DecimalGrows(a: nat, b: nat)
    requires a <= b
    ensures |Decimal(a)| <= |Decimal(b)|
  {
    if a >= 10 { DecimalGrows(a / 10, b / 10); }
  }

  /** The first digits of a number are themselves a number, and a smaller one. */
  lemma {:induction false} HeadIsSmaller(n: nat, m: nat) returns (k: nat)
    requires 1 <= n && 1 <= m < |Decimal(n)|
    ensures 1 <= k < n && Decimal(k) == Decimal(n)[..m]
  {
    k := n / 10;
    if m < |Decimal(n)| - 1 {
      k := HeadIsSmaller(n / 10, m);
    }
  }

  lemma UncutApart(ipPort: string, j: nat, k: nat)
    requires j < k && Fits(ipPort, k)
    ensures Suffix(ipPort, j) != Suffix(ipPort, k)
  {
    DecimalGrows(j, k);
    var head := "-" + ipPort + "#";
    assert (head + Decimal(j))[|head|..] == Decimal(j) && (head + Decimal(k))[|head|..] == Decimal(k);
    if Suffix(ipPort, j) == Suffix(ipPort, k) { DecimalInjective(j, k); }
  }

  lemma CutAlike(ipPort: string, n: nat) returns (k: nat)
    requires 1 < n && !Fits(ipPort, n)
    ensures 1 <= k < n && Suffix(ipPort, k) == Suffix(ipPort, n)
  {
    var head := "-" + ipPort + "#";
    if Room(ipPort) <= 0 {
      k := 1;
      assert (head + Decimal(k))[..63] == head[..63] == (head + Decimal(n))[..63];
    } else {
      k := HeadIsSmaller(n, Room(ipPort));
      assert (head + Decimal(n))[..63] == head + Decimal(n)[..Room(ipPort)];
    }
  }

  /** A name is new among the earlier ones exactly when its number was not cut off. */
  lemma NameNewIff(name: string, ipPort: string, n: nat)
    requires 1 <= n
    ensures (forall k :: 1 <= k < n ==> ConnName(name, ipPort, k) != ConnName(name, ipPort, n))
            <==> n == 1 || Fits(ipPort, n)
  {
    if n > 1 && !Fits(ipPort, n) {
      var k := CutAlike(ipPort, n);
      assert ConnName(name, ipPort, k) == ConnName(name, ipPort, n);
    } else {
      forall k | 1 <= k < n ensures ConnName(name, ipPort, k) != ConnName(name, ipPort, n) {
        UncutApart(ipPort, k, n);
        SamePrefix(name, Suffix(ipPort, k), Suffix(ipPort, n));
      }
    }
  }

  lemma SamePrefix(p: string, a: string, b: string)
    requires a != b
    ensures p + a != p + b
  {
    assert (p + a)[|p|..] == a && (p + b)[|p|..] == b;
  }

  /** Longer than any textual address with its port, so no counter of 32 bits makes names collide. */
  lemma NamesDistinct(name: string, ipPort: string, j: nat, k: nat)
    requires |ipPort| <= 51 && 1 <= j < k <= INT_MAX
    ensures ConnName(name, ipPort, j) != ConnName(name, ipPort, k)
  {
    DecimalGrows(k, INT_MAX);
    assert |Decimal(INT_MAX)| == 10;
    NameNewIff(name, ipPort, k);
  }

  // ---- The table -----------------------------------------------------------------------------

  datatype Conn = Conn(id: SL.Id, name: string, loop: SL.LoopId)

  /** A connection a server has made, when it is about to use number `next`. */
  ghost predicate IsMade(name: string, ipPort: string, next: nat, c: Conn) {
    1 <= c.id < next && c.name == ConnName(name, ipPort, c.id)
  }

  ghost predicate Keyed(name: string, ipPort: string, next: nat, m: map<string, Conn>) {
    forall k :: k in m ==> m[k].name == k && IsMade(name, ipPort, next, m[k])
  }

  ghost function IdsOf(m: map<string, Conn>): set<SL.Id> {
    set k | k in m :: m[k].id
  }

  /** The name tells the id while no number is cut off. */
  lemma NameTellsId(name: string, ipPort: string, next: nat, c: Conn, d: Conn)
    requires IsMade(name, ipPort, next, c) && IsMade(name, ipPort, next, d) && Fits(ipPort, next - 1) && c.name == d.name
    ensures c.id == d.id
  {
    if c.id < d.id {
      NameTellsOrder(name, ipPort, next, c, d);
    } else if d.id < c.id {
      NameTellsOrder(name, ipPort, next, d, c);
    }
  }

  lemma NameTellsOrder(name: string, ipPort: string, next: nat, c: Conn, d: Conn)
    requires IsMade(name, ipPort, next, c) && IsMade(name, ipPort, next, d) && Fits(ipPort, next - 1) && c.id < d.id
    ensures c.name != d.name
  {
    DecimalGrows(d.id, next - 1);
    NameNewIff(name, ipPort, d.id);
  }

  /** Filing the next connection adds its id, and costs no other its place exactly when the name is not in use. */
  lemma PutIds(name: string, ipPort: string, m: map<string, Conn>, c: Conn)
    requires Keyed(name, ipPort, c.id, m) && c.name == ConnName(name, ipPort, c.id)
    ensures IdsOf(m[c.name := c]) == IdsOf(m) + {c.id} <==> c.name !in m
  {
    var m' := m[c.name := c];
    assert m'[c.name].id in IdsOf(m');
    if c.name in m {
      assert m[c.name].id in IdsOf(m) && m[c.name].id !in IdsOf(m');
    } else {
      forall k | k in m ensures m[k].id in IdsOf(m') { assert m'[k] == m[k]; }
    }
  }

  /** Erasing by name takes out the one id, if it was there. */
  lemma DropIds(name: string, ipPort: string, next: nat, m: map<string, Conn>, c: Conn)
    requires Keyed(name, ipPort, next, m) && IsMade(name, ipPort, next, c) && Fits(ipPort, next - 1)
    ensures (c.name in m <==> c.id in IdsOf(m)) && IdsOf(m - {c.name}) == IdsOf(m) - {c.id}
  {
    forall k | k in m ensures m[k].id == c.id <==> k == c.name {
      if k == c.name { NameTellsId(name, ipPort, next, m[k], c); }
    }
    var m' := m - {c.name};
    forall k | k in m && k != c.name ensures m[k].id in IdsOf(m') { assert k in m' && m'[k] == m[k]; }
  }

  /** The machine's table is one of ids. */
  lemma MachineTable(s: SL.Server, loop: SL.LoopId)
    ensures SL.NewConnection(s, loop).nextId == s.nextId + 1 && SL.NewConnection(s, loop).table == s.table + {s.nextId}
  {
  }

  class TcpServer {
    const name: string
    const ipPort: string
    var nextConnId: SL.Id
    var connections: map<string, Conn>
    /** Functors put in the queues of io loops, and removals put in that of the base loop. */
    var posted: seq<(SL.LoopId, SL.IoTask)>
    var removals: seq<Conn>

    ghost predicate Made(c: Conn)
      reads this
    {
      IsMade(name, ipPort, nextConnId, c)
    }

    ghost predicate Valid()
      reads this
    {
      1 <= nextConnId && Keyed(name, ipPort, nextConnId, connections)
    }

    ghost function Ids(): set<SL.Id>
      reads this
    {
      IdsOf(connections)
    }

    constructor (name: string, ipPort: string)
      ensures Valid() && nextConnId == 1 && Ids() == {} && posted == [] && removals == []
      ensures this.name == name && this.ipPort == ipPort
    {
      this.name, this.ipPort := name, ipPort;
      nextConnId, connections, posted, removals := 1, map[], [], [];
    }

    /**
     A new entry. The table of ids gains one and loses none exactly when the name is not in use,
     which is sure while the number is not cut off; then it is the table of the machine.
     Establishment runs at once in the base loop, and is posted to any other.
     */
    method NewConnection(ioLoop: SL.LoopId, ghost s: SL.Server) returns (c: Conn)
      requires Valid()
      modifies this
      ensures Valid() && Made(c) && c.id == old(nextConnId) && c.loop == ioLoop
      ensures connections == old(connections)[c.name := c] && removals == old(removals)
      ensures posted == if ioLoop == SL.BASE then old(posted) else old(posted) + [(ioLoop, SL.Established(c.id))]
      ensures Ids() == old(Ids()) + {c.id} <==> c.name !in old(connections)
      ensures Fits(ipPort, c.id) ==> c.name !in old(connections)
      ensures s.nextId == old(nextConnId) && s.table == old(Ids()) && Fits(ipPort, c.id) ==>
                SL.NewConnection(s, ioLoop).nextId == nextConnId && SL.NewConnection(s, ioLoop).table == Ids()
    {
      c := Conn(nextConnId, ConnName(name, ipPort, nextConnId), ioLoop);
      NameNewIff(name, ipPort, nextConnId);
      PutIds(name, ipPort, connections, c);
      MachineTable(s, ioLoop);
      nextConnId := nextConnId + 1;
      connections := connections[c.name := c];
      if ioLoop != SL.BASE {
        posted := posted + [(ioLoop, SL.Established(c.id))];
      }
    }

    /** The close callback: at once in the base loop, and queued there from any other. */
    method RemoveConnection(c: Conn)
      requires Valid() && Made(c)
      modifies this
      ensures Valid() && nextConnId == old(nextConnId)
      ensures c.loop == SL.BASE ==> removals == old(removals) && posted == old(posted) + [(c.loop, SL.Destroyed(c.id))]
      ensures c.loop == SL.BASE && Fits(ipPort, nextConnId - 1) ==> Ids() == old(Ids()) - {c.id}
      ensures c.loop != SL.BASE ==>
                connections == old(connections) && removals == old(removals) + [c] && posted == old(posted)
    {
      if c.loop == SL.BASE {
        var _ := RemoveConnectionInLoop(c);
      } else {
        removals := removals + [c];
      }
    }

    /** `n` is what the source asserts to be 1: while names are apart it is when the connection is in the table. */
    method RemoveConnectionInLoop(c: Conn) returns (n: nat)
      requires Valid() && Made(c)
      modifies this`connections, this`posted
      ensures Valid() && connections == old(connections) - {c.name}
      ensures posted == old(posted) + [(c.loop, SL.Destroyed(c.id))]
      ensures n <= 1 && (n == 1 <==> c.name in old(connections))
      ensures Fits(ipPort, nextConnId - 1) ==> (n == 1 <==> c.id in old(Ids())) && Ids() == old(Ids()) - {c.id}
    {
      n := if c.name in connections then 1 else 0;
      if Fits(ipPort, nextConnId - 1) { DropIds(name, ipPort, nextConnId, connections, c); }
      connections := connections - {c.name};
      posted := posted + [(c.loop, SL.Destroyed(c.id))];
    }
  }
}
