/** Decimal numbers in text: the part of `sprintf`, `atoi` and `sscanf` that the
    message protocol relies on. */
module DecimalText {

  predicate IsDigit(c: char) {
    '0' <= c <= '9'
  }

  function Digit(d: nat): char
    requires d < 10
  {
    '0' + d as char
  }

  /** `sprintf("%d", n)` for `n >= 0`. */
  function Dec(n: nat): string {
    if n < 10 then [Digit(n)] else Dec(n / 10) + [Digit(n % 10)]
  }

  /** Accumulates leading digits; returns the value and what follows. */
  function Scan(s: string, acc: nat): (nat, string) {
    if s != [] && IsDigit(s[0]) then Scan(s[1..], 10 * acc + (s[0] - '0') as nat) else (acc, s)
  }

  /** `isspace`. */
  predicate IsSpace(c: char) {
    c == ' ' || '\t' <= c <= '\r'
  }

  function SkipSpaces(s: string): string {
    if s != [] && IsSpace(s[0]) then SkipSpaces(s[1..]) else s
  }

  /** One `%d` conversion: white space, an optional sign, digits. */
  function ReadInt(s: string): (int, string) {
    var t := SkipSpaces(s);
    if t != [] && t[0] == '-' then var r := Scan(t[1..], 0); (-(r.0 as int), r.1)
    else if t != [] && t[0] == '+' then Scan(t[1..], 0)
    else Scan(t, 0)
  }

  function Atoi(s: string): int {
    ReadInt(s).0
  }

  /** `sscanf(s, "%d %d %d", ...)`. */
  function ReadTriple(s: string): (int, int, int) {
    var (a, s1) := ReadInt(s);
    var (b, s2) := ReadInt(s1);
    (a, b, ReadInt(s2).0)
  }

  /** `sprintf("%d %d %d", ...)`. */
  function Triple(a: nat, b: nat, c: nat): string {
    Dec(a) + " " + Dec(b) + " " + Dec(c)
  }

  lemma {:induction false} ScanDec(n: nat, rest: string)
    ensures Scan(Dec(n) + rest, 0) == Scan(rest, n)
  {
    if n < 10 {
      assert ([Digit(n)] + rest)[1..] == rest;
    } else {
      var d := [Digit(n % 10)];
      ScanDec(n / 10, d + rest);
      assert Dec(n) + rest == Dec(n / 10) + (d + rest);
      assert (d + rest)[1..] == rest;
    }
  }

  lemma {:induction false} DecStartsWithDigit(n: nat)
    ensures Dec(n) != [] && IsDigit(Dec(n)[0])
  {
    if n < 10 {
    } else {
      DecStartsWithDigit(n / 10);
    }
  }

  /** Reading back a printed number, whatever non-digit follows it. */
  lemma {:induction false} ReadDec(n: nat, rest: string)
    requires rest == [] || !IsDigit(rest[0])
    ensures ReadInt(Dec(n) + rest) == (n, rest)
  {
    DecStartsWithDigit(n);
    ScanDec(n, rest);
  }

  lemma {:induction false} SkipBlanks(blanks: string, rest: string)
    requires forall i :: 0 <= i < |blanks| ==> IsSpace(blanks[i])
    requires rest == [] || !IsSpace(rest[0])
    ensures SkipSpaces(blanks + rest) == rest
  {
    if blanks == [] {
      assert [] + rest == rest;
    } else {
      SkipBlanks(blanks[1..], rest);
      assert (blanks + rest)[1..] == blanks[1..] + rest;
    }
  }

  lemma {:induction false} ScanZeros(zeros: string, rest: string)
    requires forall i :: 0 <= i < |zeros| ==> zeros[i] == '0'
    ensures Scan(zeros + rest, 0) == Scan(rest, 0)
  {
    if zeros == [] {
      assert [] + rest == rest;
    } else {
      ScanZeros(zeros[1..], rest);
      assert (zeros + rest)[1..] == zeros[1..] + rest;
    }
  }

  /** Reading any text of a number: white space, an optional sign, leading zeros, digits, and what is no digit. */
  lemma {:induction false} ReadNumber(blanks: string, sign: string, zeros: string, n: nat, rest: string)
    requires forall i :: 0 <= i < |blanks| ==> blanks[i] in {' ', '\t', '\n', '\U{B}', '\U{C}', '\r'}
    requires sign in {"", "+", "-"} && (forall i :: 0 <= i < |zeros| ==> zeros[i] == '0')
    requires rest == [] || !('0' <= rest[0] <= '9')
    ensures ReadInt(blanks + (sign + (zeros + (Dec(n) + rest)))) == (if sign == "-" then -(n as int) else n, rest)
  {
    var digits := zeros + (Dec(n) + rest);
    var text := sign + digits;
    DecStartsWithDigit(n);
    assert IsDigit(digits[0]);
    assert sign == "" ==> text == digits;
    SkipBlanks(blanks, text);
    assert sign != "" ==> text[0] == sign[0] && text[1..] == digits;
    ScanZeros(zeros, Dec(n) + rest);
    ScanDec(n, rest);
  }

  /** The digits of a printed number, from the right, are its decimal digits; only 0 starts with '0'. */
  lemma {:induction false} DecDigits(n: nat, i: nat)
    requires i < |Dec(n)|
    ensures Dec(n)[|Dec(n)| - 1 - i] == Digit((n / Power10(i)) % 10)
    ensures n != 0 ==> Dec(n)[0] != '0'
    decreases n
  {
    if n < 10 {
    } else {
      DecStartsWithDigit(n / 10);
      DecDigits(n / 10, if i == 0 then 0 else i - 1);
      if i != 0 {
        DivideTwice(n, Power10(i - 1));
      }
    }
  }

  lemma QuotientUnique(n: nat, d: nat, q: nat, r: nat)
    requires r < d && n == d * q + r
    ensures n / d == q
  {
    var q', r' := n / d, n % d;
    assert n == d * q' + r';
    if q < q' {
      MultiplesApart(d, q, q');
    } else if q' < q {
      MultiplesApart(d, q', q);
    }
  }

  lemma MultiplesApart(d: nat, x: nat, y: nat)
    requires x < y
    ensures d * x + d <= d * y
  {
    assert d * y == d * (x + 1) + d * (y - x - 1);
    assert 0 <= d * (y - x - 1);
  }

  lemma DivideTwice(n: nat, p: nat)
    requires 0 < p
    ensures n / 10 / p == n / (10 * p)
  {
    var m, t := n / 10, n % 10;
    var q, s := m / p, m % p;
    assert m == p * q + s;
    assert (10 * p) * q == 10 * (p * q);
    QuotientUnique(n, 10 * p, q, 10 * s + t);
  }

  lemma {:induction false} AtoiRoundTrip(n: nat)
    ensures Atoi(Dec(n)) == n
  {
    ReadDec(n, []);
    assert Dec(n) + [] == Dec(n);
  }

  lemma {:induction false} ReadAfterBlank(n: nat, rest: string)
    requires rest == [] || !IsDigit(rest[0])
    ensures ReadInt(" " + (Dec(n) + rest)) == (n, rest)
  {
    var s := Dec(n) + rest;
    ReadDec(n, rest);
    DecStartsWithDigit(n);
    assert (" " + s)[1..] == s;
    assert SkipSpaces(" " + s) == SkipSpaces(s);
  }

  lemma TripleRoundTrip(a: nat, b: nat, c: nat)
    ensures ReadTriple(Triple(a, b, c)) == (a, b, c)
  {
    var s2 := " " + (Dec(c) + []);
    var s1 := " " + (Dec(b) + s2);
    assert Triple(a, b, c) == Dec(a) + s1;
    ReadDec(a, s1);
    ReadAfterBlank(b, s2);
    ReadAfterBlank(c, []);
  }

  /** Numbers below ten to the `k` take at most `k` digits. */
  lemma {:induction false} DecLength(n: nat, k: nat, limit: nat)
    requires 1 <= k && limit == Power10(k) && n < limit
    ensures |Dec(n)| <= k
  {
    if n < 10 {
    } else {
      DecLength(n / 10, k - 1, limit / 10);
    }
  }

  function Power10(k: nat): (p: nat)
    ensures 0 < p
  {
    if k == 0 then 1 else 10 * Power10(k - 1)
  }
}

/** The client-server prime protocol of cw06/zad1 over System V message queues.
    Clients join by sending their queue id, receive a client id, and then ask
    for numbers and report whether they are prime. */
module PrimeQueue {
  import opened Sums
  import opened DecimalText

  // -------------------------------------------------------------- primality

  predicate Divides(d: int, n: int)
    requires d != 0
  {
    n % d == 0
  }

  ghost predicate Prime(n: int) {
    2 <= n && forall d :: 2 <= d < n ==> !Divides(d, n)
  }

  /** The verdict of the client's trial division. */
  predicate LooksPrime(n: int) {
    forall d :: 2 <= d <= n / 2 ==> !Divides(d, n)
  }

  /** client.c, lines 17-28. */
  method IsPrime(number: int) returns (verdict: int)
    ensures verdict == if LooksPrime(number) then 1 else 0
  {
    var flag := 0;
    var i := 2;
    while i <= number / 2
      invariant 2 <= i && flag == 0
      invariant forall d :: 2 <= d < i ==> !Divides(d, number)
    {
      if number % i == 0 {
        assert Divides(i, number);
        flag := 1;
        break;
      }
      i := i + 1;
    }
    if flag != 0 {
      return 0;
    } else {
      return 1;
    }
  }

  predicate IsProduct(a: int, b: int, n: int) {
    n == a * b
  }

  lemma ProductDivides(a: nat, b: nat, n: nat)
    requires 2 <= a && 2 <= b && IsProduct(a, b, n)
    ensures a < n && Divides(a, n)
  {
    MultiplesApart(a, 1, b);
    QuotientUnique(n, a, b, 0);
  }

  lemma DivisorIsFactor(d: nat, n: nat)
    requires 2 <= d < n && Divides(d, n)
    ensures 2 <= n / d && IsProduct(d, n / d, n)
  {
    assert n == d * (n / d);
    AtMostOnce(d, n / d);
  }

  lemma AtMostOnce(d: nat, q: nat)
    ensures q <= 1 ==> d * q <= d
  {
    assert q <= 1 ==> q == 0 || q == 1;
  }

  /** A number from 2 on is prime exactly when it is no product of two factors from 2 on. */
  lemma PrimesAreNoProducts(n: int)
    requires 2 <= n
    ensures Prime(n) <==> !exists a, b :: 2 <= a && 2 <= b && IsProduct(a, b, n)
  {
    if !Prime(n) {
      var d :| 2 <= d < n && Divides(d, n);
      DivisorIsFactor(d, n);
    }
    forall a, b | 2 <= a && 2 <= b && IsProduct(a, b, n)
      ensures a < n && Divides(a, n)
    {
      ProductDivides(a, b, n);
    }
  }

  /** Trial division up to half the number decides primality exactly from 2 on; below 2 it always says yes. */
  lemma LooksPrimeExactlyWhen(n: int)
    ensures LooksPrime(n) <==> n < 2 || Prime(n)
  {
    if 2 <= n && LooksPrime(n) {
      forall d | 2 <= d < n
        ensures !Divides(d, n)
      {
        if n / 2 < d && Divides(d, n) {
          var q := n / d;
          assert n == d * q;
          BetweenOneAndTwo(d, q, n);
          assert false;
        }
      }
    }
  }

  lemma BetweenOneAndTwo(d: int, q: int, n: int)
    requires 2 <= d < n && n < 2 * d
    ensures n != d * q
  {
    if q <= 1 {
      assert d * q <= d;
    } else {
      assert d * q >= d * 2;
    }
  }

  /** The numbers on which the client's answer is wrong. */
  lemma ZeroAndOneAreReported()
    ensures LooksPrime(0) && LooksPrime(1) && !Prime(0) && !Prime(1)
  {
  }

  // ---------------------------------------------------------------- messages

  datatype Option<T> = None | Some(value: T)

  datatype Message = Message(kind: int, value: string)

  /** The queue identifiers of the clients and the capacities of the queues, in messages. */
  datatype Net = Net(queueOf: seq<nat>, serverCapacity: nat, clientCapacity: nat) {
    ghost predicate Valid() {
      && 1 <= |queueOf| && 1 <= serverCapacity && 1 <= clientCapacity
      && forall c, d :: 0 <= c < d < |queueOf| ==> queueOf[c] != queueOf[d]
    }
  }

  /** The size of `client_queues`. */
  const TABLE_SIZE := 100

  /** `RAND_MAX` of the C library. */
  const RAND_MAX := 2147483647

  datatype Client = Client(inbox: seq<Message>, out: Option<Message>, id: Option<nat>)

  /** A reply on its way to the queue with identifier `to`. */
  datatype Reply = Reply(to: int, m: Message)

  /** `drawn`, `judged` and `printed` record (client id, number) pairs: numbers handed out,
      verdicts received, and lines printed. `badAccess` tells that the table was indexed outside its bounds,
      or an entry or an id was read that had never been set. */
  datatype State = State(
    queue: seq<Message>, out: Option<Reply>, table: seq<int>, next: nat, clients: seq<Client>,
    drawn: multiset<(int, int)>, judged: multiset<(int, int)>, printed: multiset<(int, int)>, badAccess: bool)
  {
    function WithClient(c: nat, client: Client): State
      requires c < |clients|
    {
      this.(clients := clients[c := client])
    }
  }

  /** A client that is about to send its queue id. */
  function Newcomer(net: Net, c: nat): Client
    requires c < |net.queueOf|
  {
    Client([], Some(Message(1, Dec(net.queueOf[c]))), None)
  }

  /** Every client is about to send its queue id (client.c, lines 56-61); the table holds arbitrary values. */
  predicate Init(net: Net, s: State) {
    && s.queue == [] && s.out == None && |s.table| == TABLE_SIZE && s.next == 0
    && |s.clients| == |net.queueOf|
    && (forall c :: 0 <= c < |s.clients| ==>
          s.clients[c] == Newcomer(net, c))
    && s.drawn == s.judged == s.printed == multiset{} && !s.badAccess
  }

  function Flag(x: int): nat { if LooksPrime(x) then 1 else 0 }

  /** The client's reaction to a message (client.c, lines 68-95); an id that was never set is a bad access. */
  function React(client: Client, m: Message): (Client, bool) {
    if m.kind == 1 then
      var id := Atoi(m.value);
      if id < 0 then (client, true)
      else (client.(id := Some(id), out := Some(Message(2, m.value))), false)
    else if m.kind == 2 then
      var number := Atoi(m.value);
      if client.id.None? || number < 0 then (client, true)
      else (client.(out := Some(Message(3, Triple(client.id.value, number, Flag(number))))), false)
    else if m.kind == 3 then
      if client.id.None? then (client, true)
      else (client.(out := Some(Message(2, Dec(client.id.value)))), false)
    else (client, false)
  }

  /** The server's reaction (server.c, lines 46-80); so is an index outside the table, or of an unset entry. */
  function Serve(s: State, m: Message, random: nat): State {
    if m.kind == 1 then
      var q := Atoi(m.value);
      if |s.table| <= s.next then s.(badAccess := true)
      else s.(table := s.table[s.next := q], next := s.next + 1, out := Some(Reply(q, Message(1, Dec(s.next)))))
    else if m.kind == 2 then
      var id := Atoi(m.value);
      if id < 0 || s.next <= id || |s.table| <= id then s.(badAccess := true)
      else s.(drawn := s.drawn + multiset{(id, random)}, out := Some(Reply(s.table[id], Message(2, Dec(random)))))
    else if m.kind == 3 then
      var (id, number, verdict) := ReadTriple(m.value);
      if id < 0 || s.next <= id || |s.table| <= id then s.(badAccess := true)
      else s.(judged := s.judged + multiset{(id, number)},
              printed := s.printed + (if verdict != 0 then multiset{(id, number)} else multiset{}),
              out := Some(Reply(s.table[id], Message(3, m.value))))
    else s
  }

  /** `ClientSend` and `ServerSend` are the blocking `msgsnd` calls, the others the successful `msgrcv` calls. */
  datatype Action = ClientSend(c: nat) | ClientReceive(c: nat) | ServerReceive(random: nat) | ServerSend(c: nat)

  /** An action that moves a message; the unsuccessful polls in between change nothing. */
  predicate Enabled(net: Net, s: State, act: Action) {
    && !s.badAccess && |s.clients| == |net.queueOf|
    && match act
       case ClientSend(c) => c < |s.clients| && s.clients[c].out.Some? && |s.queue| < net.serverCapacity
       case ClientReceive(c) => c < |s.clients| && s.clients[c].out.None? && s.clients[c].inbox != []
       case ServerReceive(random) => s.out.None? && s.queue != [] && random <= RAND_MAX
       case ServerSend(c) =>
         && s.out.Some? && c < |s.clients|
         && net.queueOf[c] == s.out.value.to && |s.clients[c].inbox| < net.clientCapacity
  }

  function Exec(net: Net, s: State, act: Action): State
    requires Enabled(net, s, act)
  {
    match act
    case ClientSend(c) =>
      var client := s.clients[c];
      s.(queue := s.queue + [client.out.value]).WithClient(c, client.(out := None))
    case ClientReceive(c) =>
      var client := s.clients[c];
      var (client', bad) := React(client.(inbox := client.inbox[1..]), client.inbox[0]);
      s.WithClient(c, client').(badAccess := bad)
    case ServerReceive(random) => Serve(s.(queue := s.queue[1..]), s.queue[0], random)
    case ServerSend(c) =>
      var client := s.clients[c];
      s.(out := None).WithClient(c, client.(inbox := client.inbox + [s.out.value.m]))
  }

  predicate Execution(net: Net, states: seq<State>, acts: seq<Action>) {
    && |states| == |acts| + 1
    && forall k :: 0 <= k < |acts| ==>
         Enabled(net, states[k], acts[k]) && states[k + 1] == Exec(net, states[k], acts[k])
  }

  // ------------------------------------------------- the two dispatch loops' bodies

  /** The server's variables: the table of client queues and the next id. */
  class Server {
    const clientQueues: array<int>
    var clientId: nat

    constructor ()
      ensures fresh(clientQueues) && clientQueues.Length == TABLE_SIZE && clientId == 0
    {
      clientQueues := new int[TABLE_SIZE];
      clientId := 0;
    }

    /** server.c, lines 46-80: the reply to a message, and the pair it prints. `s` stands for the rest of the system. */
    method Dispatch(m: Message, random: nat, ghost s: State) returns (reply: Option<Reply>, line: Option<(int, int)>)
      requires s.table == clientQueues[..] && s.next == clientId && s.out == None
      requires !Serve(s, m, random).badAccess
      modifies this`clientId, clientQueues
      ensures var t := Serve(s, m, random);
        && clientQueues[..] == t.table && clientId == t.next && reply == t.out
        && t.printed == s.printed + if line.Some? then multiset{line.value} else multiset{}
    {
      reply, line := None, None;
      if m.kind == 1 {
        var clientQueue := Atoi(m.value);
        clientQueues[clientId] := clientQueue;
        reply := Some(Reply(clientQueue, Message(1, Dec(clientId))));
        clientId := clientId + 1;
      } else if m.kind == 2 {
        reply := Some(Reply(clientQueues[Atoi(m.value)], Message(2, Dec(random))));
      } else if m.kind == 3 {
        var (id, number, verdict) := ReadTriple(m.value);
        if verdict != 0 {
          line := Some((id, number));
        }
        reply := Some(Reply(clientQueues[id], Message(3, m.value)));
      }
    }
  }

  /** The client's variable, unset until the first reply. */
  class ClientProcess {
    var clientId: Option<nat>

    constructor ()
      ensures clientId == None
    {
      clientId := None;
    }

    /** client.c, lines 68-95: the request with which the client answers a reply. */
    method Dispatch(m: Message) returns (request: Option<Message>)
      requires !React(Client([], None, clientId), m).1
      modifies this
      ensures React(Client([], None, old(clientId)), m).0 == Client([], request, clientId)
    {
      request := None;
      if m.kind == 1 {
        clientId := Some(Atoi(m.value));
        request := Some(Message(2, m.value));
      } else if m.kind == 2 {
        var number := Atoi(m.value);
        var verdict := IsPrime(number);
        request := Some(Message(3, Triple(clientId.value, number, verdict)));
      } else if m.kind == 3 {
        request := Some(Message(2, Dec(clientId.value)));
      }
    }
  }

  // ------------------------------------------------------------------ tokens

  /** What a client's single message says, in terms of the protocol. */
  datatype Load =
    | Hello
    | Welcome(id: nat)
    | Ask(id: nat)
    | Number(id: nat, x: nat)
    | Verdict(id: nat, x: nat)
    | Ack(id: nat, x: nat)

  datatype Place = AtClient | InServerQueue | AtServer | InClientQueue

  /** The token of a client: where its message is, and what it says. */
  datatype Token = Token(place: Place, load: Load)

  /** The abstract state: one token per client, the owners of the messages in the server's queue,
      and the client being served. */
  datatype Tokens = Tokens(of: seq<Token>, waiting: seq<nat>, serving: Option<nat>)

  /** The message that carries a load. */
  function Encode(net: Net, c: nat, load: Load): Message
    requires c < |net.queueOf|
  {
    match load
    case Hello => Message(1, Dec(net.queueOf[c]))
    case Welcome(id) => Message(1, Dec(id))
    case Ask(id) => Message(2, Dec(id))
    case Number(_, x) => Message(2, Dec(x))
    case Verdict(id, x) => Message(3, Triple(id, x, Flag(x)))
    case Ack(id, x) => Message(3, Triple(id, x, Flag(x)))
  }

  /** Requests travel to the server, replies to the client. */
  predicate PlaceOk(t: Token) {
    if t.load.Hello? || t.load.Ask? || t.load.Verdict? then
      t.place == AtClient || t.place == InServerQueue
    else
      t.place == AtServer || t.place == InClientQueue
  }

  function IdOf(load: Load): Option<nat> {
    if load.Hello? then None else Some(load.id)
  }

  predicate ClientOk(net: Net, client: Client, c: nat, t: Token)
    requires c < |net.queueOf|
  {
    && PlaceOk(t)
    && client.out == (if t.place == AtClient then Some(Encode(net, c, t.load)) else None)
    && client.inbox == (if t.place == InClientQueue then [Encode(net, c, t.load)] else [])
    && client.id == if t.load.Welcome? then None else IdOf(t.load)
  }

  predicate ClientsOk(net: Net, s: State, a: Tokens) {
    && |a.of| == |s.clients| == |net.queueOf|
    && forall c :: 0 <= c < |a.of| ==> ClientOk(net, s.clients[c], c, a.of[c])
  }

  predicate QueueOk(net: Net, s: State, a: Tokens)
    requires |a.of| == |net.queueOf|
  {
    && |s.queue| == |a.waiting|
    && (forall i :: 0 <= i < |a.waiting| ==> a.waiting[i] < |a.of|)
    && (forall i :: 0 <= i < |a.waiting| ==>
         && a.of[a.waiting[i]].place == InServerQueue
         && s.queue[i] == Encode(net, a.waiting[i], a.of[a.waiting[i]].load))
    && (forall i, j :: 0 <= i < j < |a.waiting| ==> a.waiting[i] != a.waiting[j])
    && (forall c :: 0 <= c < |a.of| && a.of[c].place == InServerQueue ==> c in a.waiting)
  }

  predicate ServerOk(net: Net, s: State, a: Tokens)
    requires |a.of| == |net.queueOf|
  {
    && (a.serving.Some? <==> s.out.Some?)
    && (a.serving.Some? ==>
         var c := a.serving.value;
         c < |a.of| && s.out.value == Reply(net.queueOf[c], Encode(net, c, a.of[c].load)))
    && (forall c :: 0 <= c < |a.of| ==> (a.of[c].place == AtServer <==> a.serving == Some(c)))
  }

  function RegisteredW(t: Token): int { if t.load.Hello? then 0 else 1 }

  /** The ids handed out are the indices below `next`, and the table sends each back to its client. */
  predicate TableOk(net: Net, s: State, a: Tokens)
    requires |a.of| == |net.queueOf|
  {
    && |s.table| == TABLE_SIZE && s.next == Sum(a.of, RegisteredW)
    && forall c :: 0 <= c < |a.of| && IdOf(a.of[c].load).Some? ==>
         var id := a.of[c].load.id; id < s.next && id < TABLE_SIZE && s.table[id] == net.queueOf[c]
  }

  /** A number drawn for a client and not yet judged travels with its token. */
  function PendingW(pair: (int, int)): Token -> int {
    (t: Token) => if (t.load.Number? || t.load.Verdict?) && (t.load.id, t.load.x) == pair then 1 else 0
  }

  ghost predicate HistoryOk(s: State, a: Tokens) {
    && (forall pair :: s.drawn[pair] == s.judged[pair] + Sum(a.of, PendingW(pair)))
    && (forall pair :: s.printed[pair] == if LooksPrime(pair.1) then s.judged[pair] else 0)
  }

  /** The concrete state represents the abstract one. */
  ghost predicate Represents(net: Net, s: State, a: Tokens) {
    && ClientsOk(net, s, a) && QueueOk(net, s, a) && ServerOk(net, s, a) && TableOk(net, s, a) && HistoryOk(s, a)
    && !s.badAccess
  }

  // -------------------------------------------------------------- simulation

  /** The client's answer to a reply, and the server's reply to a request. */
  function Answer(load: Load): Load {
    match load
    case Welcome(id) => Ask(id)
    case Number(id, x) => Verdict(id, x)
    case Ack(id, _) => Ask(id)
    case _ => load
  }

  function ReplyTo(load: Load, next: nat, random: nat): Load {
    match load
    case Hello => Welcome(next)
    case Ask(id) => Number(id, random)
    case Verdict(id, x) => Ack(id, x)
    case _ => load
  }

  function Put(a: Tokens, c: nat, t: Token): Tokens
    requires c < |a.of|
  {
    a.(of := a.of[c := t])
  }

  /** The abstract protocol: each action moves one token along its cycle. */
  function Move(a: Tokens, act: Action, next: nat): Tokens {
    match act
    case ClientSend(c) =>
      if |a.of| <= c then a else Put(a, c, a.of[c].(place := InServerQueue)).(waiting := a.waiting + [c])
    case ClientReceive(c) =>
      if |a.of| <= c then a else Put(a, c, Token(AtClient, Answer(a.of[c].load)))
    case ServerReceive(random) =>
      if a.waiting == [] || |a.of| <= a.waiting[0] then a else
      var c := a.waiting[0];
      Put(a, c, Token(AtServer, ReplyTo(a.of[c].load, next, random))).(waiting := a.waiting[1..], serving := Some(c))
    case ServerSend(_) =>
      if a.serving.None? || |a.of| <= a.serving.value then a else
      Put(a, a.serving.value, a.of[a.serving.value].(place := InClientQueue)).(serving := None)
  }

  // Each relation on its own, when the token of client `c` becomes `u`.

  lemma ClientsStep(net: Net, s: State, a: Tokens, t: State, b: Tokens, c: nat, u: Token)
    requires ClientsOk(net, s, a) && c < |a.of| && b.of == a.of[c := u]
    requires |t.clients| == |s.clients| && t.clients == s.clients[c := t.clients[c]]
    requires ClientOk(net, t.clients[c], c, u)
    ensures ClientsOk(net, t, b)
  {
    forall d | 0 <= d < |b.of|
      ensures ClientOk(net, t.clients[d], d, b.of[d])
    {
      assert d != c ==> ClientOk(net, s.clients[d], d, a.of[d]);
    }
  }

  lemma QueueKept(net: Net, s: State, a: Tokens, t: State, b: Tokens, c: nat, u: Token)
    requires |a.of| == |net.queueOf| && QueueOk(net, s, a) && c < |a.of| && b.of == a.of[c := u]
    requires t.queue == s.queue && b.waiting == a.waiting
    requires a.of[c].place != InServerQueue && u.place != InServerQueue
    ensures QueueOk(net, t, b)
  {
  }

  lemma ServerKept(net: Net, s: State, a: Tokens, t: State, b: Tokens, c: nat, u: Token)
    requires |a.of| == |net.queueOf| && ServerOk(net, s, a) && c < |a.of| && b.of == a.of[c := u]
    requires t.out == s.out && b.serving == a.serving
    requires a.of[c].place != AtServer && u.place != AtServer
    ensures ServerOk(net, t, b)
  {
  }

  /** What the table and the history say depends on the ids and on the pending numbers. */
  lemma RecordsKept(net: Net, s: State, a: Tokens, t: State, b: Tokens, c: nat, u: Token)
    requires |a.of| == |net.queueOf| && TableOk(net, s, a) && HistoryOk(s, a) && c < |a.of| && b.of == a.of[c := u]
    requires t.table == s.table && t.next == s.next
    requires t.drawn == s.drawn && t.judged == s.judged && t.printed == s.printed
    requires IdOf(u.load) == IdOf(a.of[c].load)
    requires forall pair :: PendingW(pair)(u) == PendingW(pair)(a.of[c])
    ensures TableOk(net, t, b) && HistoryOk(t, b)
  {
    SumUpdate(a.of, c, u, RegisteredW);
    forall pair
      ensures Sum(b.of, PendingW(pair)) == Sum(a.of, PendingW(pair))
    {
      SumUpdate(a.of, c, u, PendingW(pair));
    }
  }

  lemma Enqueued(net: Net, s: State, a: Tokens, c: nat, t: State, b: Tokens)
    requires |a.of| == |net.queueOf| && QueueOk(net, s, a) && c < |a.of| && a.of[c].place == AtClient
    requires t.queue == s.queue + [Encode(net, c, a.of[c].load)]
    requires b.of == a.of[c := a.of[c].(place := InServerQueue)] && b.waiting == a.waiting + [c]
    ensures QueueOk(net, t, b)
  {
  }

  lemma Dequeued(net: Net, s: State, a: Tokens, t: State, b: Tokens, c: nat, u: Token)
    requires |a.of| == |net.queueOf| && QueueOk(net, s, a) && a.waiting != [] && c == a.waiting[0]
    requires t.queue == s.queue[1..] && u.place != InServerQueue
    requires b.of == a.of[c := u] && b.waiting == a.waiting[1..]
    ensures QueueOk(net, t, b)
  {
    forall d | 0 <= d < |b.of| && b.of[d].place == InServerQueue
      ensures d in b.waiting
    {
      var i: nat :| i < |a.waiting| && a.waiting[i] == d;
      assert b.waiting[i - 1] == d;
    }
  }

  lemma SimulateClientSend(net: Net, s: State, a: Tokens, c: nat, t: State, b: Tokens)
    requires Represents(net, s, a) && Enabled(net, s, ClientSend(c))
    requires t == Exec(net, s, ClientSend(c)) && b == Move(a, ClientSend(c), s.next)
    ensures Represents(net, t, b)
  {
    assert ClientOk(net, s.clients[c], c, a.of[c]);
    ClientsStep(net, s, a, t, b, c, b.of[c]);
    Enqueued(net, s, a, c, t, b);
    ServerKept(net, s, a, t, b, c, b.of[c]);
    RecordsKept(net, s, a, t, b, c, b.of[c]);
  }

  lemma ServerFreed(net: Net, s: State, a: Tokens, t: State, b: Tokens, c: nat, u: Token)
    requires |a.of| == |net.queueOf| && ServerOk(net, s, a) && a.serving == Some(c) && c < |a.of|
    requires b.of == a.of[c := u] && u.place != AtServer && t.out.None? && b.serving.None?
    ensures ServerOk(net, t, b)
  {
  }

  lemma QueuesDiffer(net: Net, c: nat, d: nat)
    requires net.Valid() && c < |net.queueOf| && d < |net.queueOf| && net.queueOf[c] == net.queueOf[d]
    ensures c == d
  {
  }

  /** The reply is addressed to the client whose token the server holds. */
  lemma ServedClient(net: Net, s: State, a: Tokens, c: nat)
    requires net.Valid() && Represents(net, s, a) && Enabled(net, s, ServerSend(c))
    ensures a.serving == Some(c) && c < |a.of| && ClientOk(net, s.clients[c], c, a.of[c])
    ensures a.of[c].place == AtServer && s.out.value.m == Encode(net, c, a.of[c].load)
  {
    QueuesDiffer(net, c, a.serving.value);
    assert ClientOk(net, s.clients[c], c, a.of[c]);
  }

  lemma SimulateServerSend(net: Net, s: State, a: Tokens, c: nat, t: State, b: Tokens)
    requires net.Valid() && Represents(net, s, a) && Enabled(net, s, ServerSend(c))
    requires t == Exec(net, s, ServerSend(c)) && b == Move(a, ServerSend(c), s.next)
    ensures Represents(net, t, b)
  {
    ServedClient(net, s, a, c);
    ClientsStep(net, s, a, t, b, c, b.of[c]);
    QueueKept(net, s, a, t, b, c, b.of[c]);
    ServerFreed(net, s, a, t, b, c, b.of[c]);
    RecordsKept(net, s, a, t, b, c, b.of[c]);
  }

  /** The client understands each reply and composes the request that answers it. */
  lemma ReactEncodes(net: Net, client: Client, c: nat, load: Load)
    requires c < |net.queueOf| && ClientOk(net, client, c, Token(InClientQueue, load))
    ensures client.inbox != []
    ensures var (after, bad) := React(client.(inbox := client.inbox[1..]), client.inbox[0]);
      !bad && ClientOk(net, after, c, Token(AtClient, Answer(load)))
  {
    match load
    case Welcome(id) => AtoiRoundTrip(id);
    case Number(id, x) => AtoiRoundTrip(x);
    case Ack(id, x) =>
  }

  lemma SimulateClientReceive(net: Net, s: State, a: Tokens, c: nat, t: State, b: Tokens)
    requires Represents(net, s, a) && Enabled(net, s, ClientReceive(c))
    requires t == Exec(net, s, ClientReceive(c)) && b == Move(a, ClientReceive(c), s.next)
    ensures Represents(net, t, b)
  {
    assert ClientOk(net, s.clients[c], c, a.of[c]);
    ReactEncodes(net, s.clients[c], c, a.of[c].load);
    assert b.of[c] == Token(AtClient, Answer(a.of[c].load)) && ClientOk(net, t.clients[c], c, b.of[c]);
    ClientsStep(net, s, a, t, b, c, b.of[c]);
    QueueKept(net, s, a, t, b, c, b.of[c]);
    ServerKept(net, s, a, t, b, c, b.of[c]);
    RecordsKept(net, s, a, t, b, c, b.of[c]);
  }

  /** The server understands the oldest request and replies to its sender. */
  lemma ServeEncodes(net: Net, s: State, c: nat, load: Load, random: nat)
    requires c < |net.queueOf| && |s.table| == TABLE_SIZE
    requires load.Hello? || load.Ask? || load.Verdict?
    requires load.Hello? ==> s.next < TABLE_SIZE
    requires !load.Hello? ==> load.id < s.next && load.id < TABLE_SIZE && s.table[load.id] == net.queueOf[c]
    ensures var t := Serve(s, Encode(net, c, load), random);
      && t.badAccess == s.badAccess && t.queue == s.queue && t.clients == s.clients
      && t.out == Some(Reply(net.queueOf[c], Encode(net, c, ReplyTo(load, s.next, random))))
      && t.next == s.next + (if load.Hello? then 1 else 0)
      && t.table == (if load.Hello? then s.table[s.next := net.queueOf[c]] else s.table)
      && Recorded(s, t, load, random)
  {
    var t, m := Serve(s, Encode(net, c, load), random), Encode(net, c, load);
    match load
    case Hello =>
      AtoiRoundTrip(net.queueOf[c]);
      assert Atoi(m.value) == net.queueOf[c];
    case Ask(id) =>
      AtoiRoundTrip(id);
      assert Atoi(m.value) == id;
    case Verdict(id, x) =>
      TripleRoundTrip(id, x, Flag(x));
      assert ReadTriple(m.value) == (id, x, Flag(x));
  }

  /** Fewer ids than clients have been handed out while somebody still says hello. */
  lemma RoomInTable(net: Net, s: State, a: Tokens, c: nat)
    requires Represents(net, s, a) && c < |a.of| && a.of[c].load.Hello?
    ensures s.next < |net.queueOf|
  {
    var t := a.of[c].(load := Welcome(0));
    SumUpdate(a.of, c, t, RegisteredW);
    SumBounds(a.of[c := t], RegisteredW, 0, 1);
  }

  lemma ServedTable(net: Net, s: State, a: Tokens, c: nat, t: State, b: Tokens, u: Token, random: nat)
    requires |a.of| == |net.queueOf| && TableOk(net, s, a) && c < |a.of|
    requires u == Token(AtServer, ReplyTo(a.of[c].load, s.next, random)) && b.of == a.of[c := u]
    requires a.of[c].load.Hello? ==> s.next < TABLE_SIZE
    requires t.next == s.next + (if a.of[c].load.Hello? then 1 else 0)
    requires t.table == if a.of[c].load.Hello? then s.table[s.next := net.queueOf[c]] else s.table
    ensures TableOk(net, t, b)
  {
    SumUpdate(a.of, c, u, RegisteredW);
  }

  /** What serving a request does to the records. */
  predicate Recorded(s: State, t: State, load: Load, random: nat) {
    && t.drawn == (if load.Ask? then s.drawn + multiset{(load.id as int, random as int)} else s.drawn)
    && t.judged == (if load.Verdict? then s.judged + multiset{(load.id as int, load.x as int)} else s.judged)
    && t.printed == (if load.Verdict? && LooksPrime(load.x)
                     then s.printed + multiset{(load.id as int, load.x as int)} else s.printed)
  }

  lemma ServedPending(load: Load, next: nat, random: nat, pair: (int, int), place: Place)
    requires load.Hello? || load.Ask? || load.Verdict?
    ensures PendingW(pair)(Token(AtServer, ReplyTo(load, next, random))) - PendingW(pair)(Token(place, load)) ==
      One(load.Ask? && pair == (load.id, random)) - One(load.Verdict? && pair == (load.id, load.x))
  {
  }

  lemma ServedHistory(s: State, a: Tokens, c: nat, t: State, b: Tokens, u: Token, random: nat)
    requires HistoryOk(s, a) && c < |a.of| && PlaceOk(a.of[c]) && a.of[c].place == InServerQueue
    requires u == Token(AtServer, ReplyTo(a.of[c].load, s.next, random)) && b.of == a.of[c := u]
    requires Recorded(s, t, a.of[c].load, random)
    ensures HistoryOk(t, b)
  {
    forall pair
      ensures t.drawn[pair] == t.judged[pair] + Sum(b.of, PendingW(pair))
      ensures t.printed[pair] == if LooksPrime(pair.1) then t.judged[pair] else 0
    {
      SumUpdate(a.of, c, u, PendingW(pair));
      ServedPending(a.of[c].load, s.next, random, pair, a.of[c].place);
    }
  }

  lemma ServedServer(net: Net, s: State, a: Tokens, c: nat, t: State, b: Tokens, u: Token)
    requires |a.of| == |net.queueOf| && ServerOk(net, s, a) && s.out.None? && c < |a.of|
    requires b.of == a.of[c := u] && u.place == AtServer && b.serving == Some(c)
    requires t.out == Some(Reply(net.queueOf[c], Encode(net, c, u.load)))
    ensures ServerOk(net, t, b)
  {
  }

  /** The oldest request is what its sender's token says. */
  lemma OldestRequest(net: Net, s: State, a: Tokens) returns (c: nat)
    requires Represents(net, s, a) && s.queue != []
    ensures a.waiting != [] && c == a.waiting[0] && c < |a.of| == |net.queueOf| == |s.clients|
    ensures a.of[c].place == InServerQueue && s.queue[0] == Encode(net, c, a.of[c].load)
    ensures ClientOk(net, s.clients[c], c, a.of[c])
    ensures a.of[c].load.Hello? ==> s.next < |net.queueOf|
    ensures !a.of[c].load.Hello? ==>
      var id := a.of[c].load.id; id < s.next && id < TABLE_SIZE && s.table[id] == net.queueOf[c]
  {
    c := a.waiting[0];
    assert a.of[c].place == InServerQueue;
    assert ClientOk(net, s.clients[c], c, a.of[c]);
    if a.of[c].load.Hello? {
      RoomInTable(net, s, a, c);
    } else {
      assert IdOf(a.of[c].load).Some?;
    }
  }

  /** Everything a served request must leave in place. */
  lemma ServedRepresents(net: Net, s: State, a: Tokens, c: nat, t: State, b: Tokens, u: Token, random: nat)
    requires Represents(net, s, a) && s.out.None? && a.waiting != [] && c == a.waiting[0] && c < |a.of|
    requires PlaceOk(a.of[c]) && a.of[c].place == InServerQueue
    requires u == Token(AtServer, ReplyTo(a.of[c].load, s.next, random))
    requires b == Tokens(a.of[c := u], a.waiting[1..], Some(c))
    requires t.queue == s.queue[1..] && t.clients == s.clients && !t.badAccess
    requires t.out == Some(Reply(net.queueOf[c], Encode(net, c, u.load)))
    requires a.of[c].load.Hello? ==> s.next < TABLE_SIZE
    requires t.next == s.next + (if a.of[c].load.Hello? then 1 else 0)
    requires t.table == if a.of[c].load.Hello? then s.table[s.next := net.queueOf[c]] else s.table
    requires Recorded(s, t, a.of[c].load, random)
    ensures Represents(net, t, b)
  {
    assert ClientOk(net, s.clients[c], c, a.of[c]);
    ClientsStep(net, s, a, t, b, c, u);
    Dequeued(net, s, a, t, b, c, u);
    ServedServer(net, s, a, c, t, b, u);
    ServedTable(net, s, a, c, t, b, u, random);
    ServedHistory(s, a, c, t, b, u, random);
  }

  lemma SimulateServerReceive(net: Net, s: State, a: Tokens, random: nat, t: State, b: Tokens)
    requires net.Valid() && |net.queueOf| <= TABLE_SIZE
    requires Represents(net, s, a) && Enabled(net, s, ServerReceive(random))
    requires t == Exec(net, s, ServerReceive(random)) && b == Move(a, ServerReceive(random), s.next)
    ensures Represents(net, t, b)
  {
    var c := OldestRequest(net, s, a);
    ServeEncodes(net, s.(queue := s.queue[1..]), c, a.of[c].load, random);
    ServedRepresents(net, s, a, c, t, b, b.of[c], random);
  }

  lemma Simulate(net: Net, s: State, a: Tokens, act: Action)
    requires net.Valid() && |net.queueOf| <= TABLE_SIZE
    requires Represents(net, s, a) && Enabled(net, s, act)
    ensures Represents(net, Exec(net, s, act), Move(a, act, s.next))
  {
    var t, b := Exec(net, s, act), Move(a, act, s.next);
    match act
    case ClientSend(c) => SimulateClientSend(net, s, a, c, t, b);
    case ClientReceive(c) => SimulateClientReceive(net, s, a, c, t, b);
    case ServerReceive(random) => SimulateServerReceive(net, s, a, random, t, b);
    case ServerSend(c) => SimulateServerSend(net, s, a, c, t, b);
  }

  function FirstTokens(n: nat): (of: seq<Token>)
    ensures |of| == n && forall c :: 0 <= c < n ==> of[c] == Token(AtClient, Hello)
  {
    if n == 0 then [] else FirstTokens(n - 1) + [Token(AtClient, Hello)]
  }

  lemma InitRepresents(net: Net, s: State)
    requires Init(net, s)
    ensures Represents(net, s, Tokens(FirstTokens(|net.queueOf|), [], None))
  {
    var of := FirstTokens(|net.queueOf|);
    SumConstant(of, RegisteredW, 0);
    forall pair
      ensures Sum(of, PendingW(pair)) == 0
    {
      SumConstant(of, PendingW(pair), 0);
    }
  }

  /** The numbers that travel were drawn by the server. */
  predicate NumbersOk(a: Tokens) {
    forall c :: 0 <= c < |a.of| ==>
      var load := a.of[c].load; load.Number? || load.Verdict? || load.Ack? ==> load.x <= RAND_MAX
  }

  lemma MoveNumbers(net: Net, s: State, a: Tokens, act: Action)
    requires NumbersOk(a) && Enabled(net, s, act)
    ensures NumbersOk(Move(a, act, s.next))
  {
  }

  /** Refinement: with at most 100 clients, every reachable state of the message system represents a
      state of the token protocol, in which each client owns exactly one token. */
  lemma {:induction false} Refines(net: Net, states: seq<State>, acts: seq<Action>, k: nat) returns (a: Tokens)
    requires net.Valid() && |net.queueOf| <= TABLE_SIZE
    requires Execution(net, states, acts) && Init(net, states[0]) && k < |states|
    ensures Represents(net, states[k], a) && NumbersOk(a)
  {
    if k == 0 {
      InitRepresents(net, states[0]);
      a := Tokens(FirstTokens(|net.queueOf|), [], None);
    } else {
      a := Refines(net, states, acts, k - 1);
      Simulate(net, states[k - 1], a, acts[k - 1]);
      MoveNumbers(net, states[k - 1], a, acts[k - 1]);
      a := Move(a, acts[k - 1], states[k - 1].next);
    }
  }

  // ---------------------------------------------------------------- progress

  /** The actions a token is away from the server's receipt of the next verdict. */
  function ToVerdict(t: Token): (d: int)
    ensures 0 <= d <= 9
  {
    var early := t.place.AtClient? || t.place.AtServer?;
    match t.load
    case Hello => if early then 9 else 8
    case Welcome(_) => if early then 7 else 6
    case Ask(_) => if early then 5 else 4
    case Number(_, _) => if early then 3 else 2
    case Verdict(_, _) => if early then 1 else 0
    case Ack(_, _) => if early then 7 else 6
  }

  /** Client `c`'s token is the one that moves. */
  predicate Moves(a: Tokens, b: Tokens, c: nat, u: Token) {
    c < |a.of| && b.of == a.of[c := u] && PlaceOk(a.of[c])
  }

  lemma MoveOfClient(net: Net, s: State, a: Tokens, act: Action) returns (c: nat, u: Token)
    requires Represents(net, s, a) && Enabled(net, s, act) && (act.ClientSend? || act.ClientReceive?)
    ensures Moves(a, Move(a, act, s.next), c, u) && ToVerdict(u) == ToVerdict(a.of[c]) - 1
    ensures Exec(net, s, act).judged == s.judged
  {
    c := act.c;
    assert ClientOk(net, s.clients[c], c, a.of[c]);
    u := Move(a, act, s.next).of[c];
  }

  lemma MoveOfServerSend(net: Net, s: State, a: Tokens, act: Action) returns (c: nat, u: Token)
    requires net.Valid() && Represents(net, s, a) && Enabled(net, s, act) && act.ServerSend?
    ensures Moves(a, Move(a, act, s.next), c, u) && ToVerdict(u) == ToVerdict(a.of[c]) - 1
    ensures Exec(net, s, act).judged == s.judged
  {
    c := act.c;
    ServedClient(net, s, a, c);
    u := Move(a, act, s.next).of[c];
  }

  lemma ReplyDistance(load: Load, next: nat, random: nat)
    requires load.Hello? || load.Ask? || load.Verdict?
    ensures ToVerdict(Token(AtServer, ReplyTo(load, next, random))) ==
      ToVerdict(Token(InServerQueue, load)) - 1 + 8 * One(load.Verdict?)
  {
  }

  lemma JudgedGrows(s: State, t: State, load: Load, random: nat)
    requires Recorded(s, t, load, random)
    ensures |t.judged| == |s.judged| + One(load.Verdict?)
  {
  }

  lemma ReceiptRecords(net: Net, s: State, a: Tokens, random: nat, c: nat)
    requires net.Valid() && |net.queueOf| <= TABLE_SIZE
    requires Represents(net, s, a) && Enabled(net, s, ServerReceive(random))
    requires a.waiting != [] && c == a.waiting[0] && c < |a.of|
    ensures a.of[c].place == InServerQueue && PlaceOk(a.of[c])
    ensures Recorded(s.(queue := s.queue[1..]), Exec(net, s, ServerReceive(random)), a.of[c].load, random)
  {
    var d := OldestRequest(net, s, a);
    ServeEncodes(net, s.(queue := s.queue[1..]), c, a.of[c].load, random);
  }

  /** Receiving a verdict is the end of one cycle and the start of the next. */
  lemma MoveOfServerReceive(net: Net, s: State, a: Tokens, act: Action) returns (c: nat, u: Token)
    requires net.Valid() && |net.queueOf| <= TABLE_SIZE
    requires Represents(net, s, a) && Enabled(net, s, act) && act.ServerReceive?
    ensures Moves(a, Move(a, act, s.next), c, u)
    ensures ToVerdict(u) - 8 * |Exec(net, s, act).judged| == ToVerdict(a.of[c]) - 1 - 8 * |s.judged|
  {
    c := OldestRequest(net, s, a);
    ReceiptRecords(net, s, a, act.random, c);
    var load := a.of[c].load;
    u := Token(AtServer, ReplyTo(load, s.next, act.random));
    ReplyDistance(load, s.next, act.random);
    JudgedGrows(s.(queue := s.queue[1..]), Exec(net, s, act), load, act.random);
    assert a.of[c] == Token(InServerQueue, load);
  }

  /** Every action brings one token one action nearer; the server's receipt of a verdict starts it anew. */
  lemma MoveToVerdict(net: Net, s: State, a: Tokens, act: Action)
    requires net.Valid() && |net.queueOf| <= TABLE_SIZE && Represents(net, s, a) && Enabled(net, s, act)
    ensures Sum(Move(a, act, s.next).of, ToVerdict) - 8 * |Exec(net, s, act).judged| ==
      Sum(a.of, ToVerdict) - 1 - 8 * |s.judged|
  {
    var c, u;
    if act.ServerReceive? {
      c, u := MoveOfServerReceive(net, s, a, act);
    } else if act.ServerSend? {
      c, u := MoveOfServerSend(net, s, a, act);
    } else {
      c, u := MoveOfClient(net, s, a, act);
    }
    SumUpdate(a.of, c, u, ToVerdict);
  }

  lemma {:induction false} RefinesInStep(net: Net, states: seq<State>, acts: seq<Action>, k: nat) returns (a: Tokens)
    requires net.Valid() && |net.queueOf| <= TABLE_SIZE
    requires Execution(net, states, acts) && Init(net, states[0]) && k < |states|
    ensures Represents(net, states[k], a)
    ensures k + Sum(a.of, ToVerdict) == 9 * |net.queueOf| + 8 * |states[k].judged|
  {
    if k == 0 {
      InitRepresents(net, states[0]);
      a := Tokens(FirstTokens(|net.queueOf|), [], None);
      SumConstant(a.of, ToVerdict, 9);
    } else {
      a := RefinesInStep(net, states, acts, k - 1);
      Simulate(net, states[k - 1], a, acts[k - 1]);
      MoveToVerdict(net, states[k - 1], a, acts[k - 1]);
      a := Move(a, acts[k - 1], states[k - 1].next);
    }
  }

  /** Throughput: n actions of C clients bring the server between (n - 9 C) / 8 and n / 8 verdicts. */
  lemma Throughput(net: Net, states: seq<State>, acts: seq<Action>)
    requires net.Valid() && |net.queueOf| <= TABLE_SIZE && Execution(net, states, acts) && Init(net, states[0])
    ensures 8 * |states[|acts|].judged| <= |acts| <= 9 * |net.queueOf| + 8 * |states[|acts|].judged|
  {
    var a := RefinesInStep(net, states, acts, |acts|);
    SumBounds(a.of, ToVerdict, 0, 9);
  }

  /** The requests that the server has taken from its queue. */
  function Receipts(acts: seq<Action>): nat {
    if acts == [] then 0 else Receipts(acts[..|acts| - 1]) + if acts[|acts| - 1].ServerReceive? then 1 else 0
  }

  /** A receipt takes the oldest request, any other action may add one at the end. */
  predicate QueueStep(net: Net, before: seq<Message>, act: Action, after: seq<Message>) {
    && (if act.ServerReceive? then before != [] && after == before[1..] else before <= after)
    && (|before| <= net.serverCapacity ==> |after| <= net.serverCapacity)
  }

  predicate QueueSteps(net: Net, states: seq<State>, acts: seq<Action>) {
    && |states| == |acts| + 1
    && forall k :: 0 <= k < |acts| ==> QueueStep(net, states[k].queue, acts[k], states[k + 1].queue)
  }

  lemma ExecQueue(net: Net, s: State, act: Action)
    requires Enabled(net, s, act)
    ensures QueueStep(net, s.queue, act, Exec(net, s, act).queue)
  {
  }

  lemma ExecutionQueues(net: Net, states: seq<State>, acts: seq<Action>)
    requires Execution(net, states, acts)
    ensures QueueSteps(net, states, acts)
  {
    forall k | 0 <= k < |acts|
      ensures QueueStep(net, states[k].queue, acts[k], states[k + 1].queue)
    {
      assert states[k + 1] == Exec(net, states[k], acts[k]);
      ExecQueue(net, states[k], acts[k]);
    }
  }

  lemma {:induction false} QueueFits(net: Net, states: seq<State>, acts: seq<Action>, k: nat)
    requires QueueSteps(net, states, acts) && states[0].queue == [] && k < |states|
    ensures |states[k].queue| <= net.serverCapacity
  {
    if k == 0 {
    } else {
      QueueFits(net, states, acts, k - 1);
      assert QueueStep(net, states[k - 1].queue, acts[k - 1], states[k - 1 + 1].queue);
    }
  }

  /** What stands behind the first r requests, when the next one leaves. */
  lemma RestAdvances(queue: seq<Message>, r: nat, now: seq<Message>)
    requires r < |queue| && queue[r..] <= now
    ensures now != [] && queue[r + 1..] <= now[1..]
  {
    var rest := queue[r..];
    assert queue[r + 1..] == rest[1..];
    assert now[..|rest|] == rest;
    assert now[1..][..|rest| - 1] == rest[1..];
  }

  lemma PrefixOfPrefix(a: seq<Message>, b: seq<Message>, c: seq<Message>)
    requires a <= b <= c
    ensures a <= c
  {
    assert c[..|a|] == b[..|a|] == a;
  }

  lemma StepAdvances(net: Net, before: seq<Message>, act: Action, after: seq<Message>,
                     queue: seq<Message>, r: nat, r': nat)
    requires QueueStep(net, before, act, after) && r' == r + if act.ServerReceive? then 1 else 0
    requires r' <= |queue| && queue[r..] <= before
    ensures queue[r'..] <= after
  {
    if act.ServerReceive? {
      RestAdvances(queue, r, before);
    } else {
      PrefixOfPrefix(queue[r..], before, after);
    }
  }

  lemma ReceiptsGrow(acts: seq<Action>, k: nat, m: nat)
    requires k < m <= |acts|
    ensures Receipts(acts[k..m]) == Receipts(acts[k..m - 1]) + if acts[m - 1].ServerReceive? then 1 else 0
  {
    assert acts[k..m][..m - 1 - k] == acts[k..m - 1];
  }

  /** After r receipts, what was in the queue behind the first r requests leads the queue. */
  lemma {:induction false} QueueAdvances(net: Net, states: seq<State>, acts: seq<Action>, k: nat, m: nat)
    requires QueueSteps(net, states, acts) && k <= m < |states|
    requires Receipts(acts[k..m]) <= |states[k].queue|
    ensures states[k].queue[Receipts(acts[k..m])..] <= states[m].queue
    decreases m
  {
    if k == m {
      assert acts[k..m] == [];
    } else {
      ReceiptsGrow(acts, k, m);
      QueueAdvances(net, states, acts, k, m - 1);
      assert QueueStep(net, states[m - 1].queue, acts[m - 1], states[m - 1 + 1].queue);
      StepAdvances(net, states[m - 1].queue, acts[m - 1], states[m].queue,
                   states[k].queue, Receipts(acts[k..m - 1]), Receipts(acts[k..m]));
    }
  }

  /** Bounded waiting: the request at position i of the server's queue is the one that the receipt number i + 1
      takes, and i is below the queue's capacity. */
  lemma ServedInTurn(net: Net, states: seq<State>, acts: seq<Action>, k: nat, m: nat, i: nat)
    requires Execution(net, states, acts) && Init(net, states[0]) && k <= m < |acts|
    requires i < |states[k].queue| && acts[m].ServerReceive? && Receipts(acts[k..m]) == i
    ensures i < net.serverCapacity
    ensures states[m].queue != [] && states[m].queue[0] == states[k].queue[i]
  {
    ExecutionQueues(net, states, acts);
    QueueFits(net, states, acts, k);
    QueueAdvances(net, states, acts, k, m);
    assert states[k].queue[i..][0] == states[k].queue[i];
  }

  // ------------------------------------------------------------ main results

  /** Each client has exactly one message in flight or in processing: no access is ever bad, an inbox
      holds at most one message, only while its owner is polling, and the server's reply finds its inbox empty. */
  lemma OneMessagePerClient(net: Net, states: seq<State>, acts: seq<Action>, k: nat, c: nat)
    requires net.Valid() && |net.queueOf| <= TABLE_SIZE
    requires Execution(net, states, acts) && Init(net, states[0]) && k < |states| && c < |net.queueOf|
    ensures var s := states[k];
      && !s.badAccess && |s.clients| == |net.queueOf|
      && |s.clients[c].inbox| + (if s.clients[c].out.Some? then 1 else 0) <= 1
      && (s.out.Some? && s.out.value.to == net.queueOf[c] ==>
            s.clients[c].inbox == [] && Enabled(net, s, ServerSend(c)))
  {
    var a := Refines(net, states, acts, k);
    assert ClientOk(net, states[k].clients[c], c, a.of[c]);
    assert states[k].out.Some? && states[k].out.value.to == net.queueOf[c] ==> a.serving == Some(c);
  }

  /** Every reply on its way is addressed to a client. */
  lemma RepliesHaveOwners(net: Net, states: seq<State>, acts: seq<Action>, k: nat) returns (c: nat)
    requires net.Valid() && |net.queueOf| <= TABLE_SIZE
    requires Execution(net, states, acts) && Init(net, states[0]) && k < |states| && states[k].out.Some?
    ensures c < |net.queueOf| && states[k].out.value.to == net.queueOf[c]
  {
    var a := Refines(net, states, acts, k);
    c := a.serving.value;
  }

  /** Deadlock freedom: some message can always move, for any capacities of at least one. */
  lemma DeadlockFree(net: Net, states: seq<State>, acts: seq<Action>, k: nat)
    requires net.Valid() && |net.queueOf| <= TABLE_SIZE
    requires Execution(net, states, acts) && Init(net, states[0]) && k < |states|
    ensures exists act :: Enabled(net, states[k], act)
  {
    var a := Refines(net, states, acts, k);
    var s := states[k];
    assert ClientOk(net, s.clients[0], 0, a.of[0]);
    if s.out.Some? {
      OneMessagePerClient(net, states, acts, k, a.serving.value);
      assert Enabled(net, s, ServerSend(a.serving.value));
    } else if s.queue != [] {
      assert Enabled(net, s, ServerReceive(0));
    } else if a.of[0].place == AtClient {
      assert Enabled(net, s, ClientSend(0));
    } else {
      assert Enabled(net, s, ClientReceive(0));
    }
  }

  /** In every reachable state, nothing but the queues holds an action back: a client sends when it has a request and
      the server's queue has room, and receives when a reply waits; the server receives when a request waits, whatever
      number it draws, and its reply goes to the addressed client at once. */
  lemma EnabledExactlyWhen(net: Net, states: seq<State>, acts: seq<Action>, k: nat, act: Action)
    requires net.Valid() && |net.queueOf| <= 100
    requires Execution(net, states, acts) && Init(net, states[0]) && k < |states|
    ensures var s := states[k];
      && |s.clients| == |net.queueOf|
      && (Enabled(net, s, act) <==>
           match act
           case ClientSend(c) => c < |s.clients| && s.clients[c].out.Some? && |s.queue| < net.serverCapacity
           case ClientReceive(c) => c < |s.clients| && s.clients[c].out.None? && s.clients[c].inbox != []
           case ServerReceive(random) => s.out.None? && s.queue != [] && random <= 2147483647
           case ServerSend(c) => c < |s.clients| && s.out.Some? && s.out.value.to == net.queueOf[c])
  {
    var a := Refines(net, states, acts, k);
    if act.ServerSend? && act.c < |net.queueOf| {
      OneMessagePerClient(net, states, acts, k, act.c);
    }
  }

  // What the records say of the run: `Draws`, `Judgements` and `Prints` count receipts.

  predicate Draws(s: State, act: Action, pair: (int, int)) {
    act.ServerReceive? && s.queue != [] && s.queue[0].kind == 2 && pair == (Atoi(s.queue[0].value), act.random)
  }

  predicate Judges(s: State, act: Action, pair: (int, int)) {
    && act.ServerReceive? && s.queue != [] && s.queue[0].kind == 3
    && pair == (ReadTriple(s.queue[0].value).0, ReadTriple(s.queue[0].value).1)
  }

  predicate Prints(s: State, act: Action, pair: (int, int)) {
    Judges(s, act, pair) && ReadTriple(s.queue[0].value).2 != 0
  }

  function Count(states: seq<State>, acts: seq<Action>, happens: (State, Action) -> bool): nat
    requires |acts| <= |states|
    decreases |acts|
  {
    if acts == [] then 0 else
      var k := |acts| - 1;
      Count(states, acts[..k], happens) + if happens(states[k], acts[k]) then 1 else 0
  }

  lemma ExecRecords(net: Net, s: State, act: Action, pair: (int, int))
    requires Enabled(net, s, act) && !Exec(net, s, act).badAccess
    ensures var t := Exec(net, s, act);
      && t.drawn[pair] == s.drawn[pair] + One(Draws(s, act, pair))
      && t.judged[pair] == s.judged[pair] + One(Judges(s, act, pair))
      && t.printed[pair] == s.printed[pair] + One(Prints(s, act, pair))
  {
  }

  /** The records are the run's: a pair is in `drawn` as often as the server received a request for a number with that
      id and drew that number, in `judged` as often as it received a verdict on it, and in `printed` as often as that
      verdict was positive. */
  lemma {:induction false} RecordsAreTheRuns(net: Net, states: seq<State>, acts: seq<Action>, k: nat, pair: (int, int))
    requires net.Valid() && |net.queueOf| <= 100
    requires Execution(net, states, acts) && Init(net, states[0]) && k < |states|
    ensures states[k].drawn[pair] == Count(states, acts[..k], (s, act) => Draws(s, act, pair))
    ensures states[k].judged[pair] == Count(states, acts[..k], (s, act) => Judges(s, act, pair))
    ensures states[k].printed[pair] == Count(states, acts[..k], (s, act) => Prints(s, act, pair))
  {
    if k == 0 {
    } else {
      RecordsAreTheRuns(net, states, acts, k - 1, pair);
      assert acts[..k][..k - 1] == acts[..k - 1];
      var a := Refines(net, states, acts, k);
      assert states[k - 1 + 1] == Exec(net, states[k - 1], acts[k - 1]);
      ExecRecords(net, states[k - 1], acts[k - 1], pair);
    }
  }

  /** Ids: a client's id is below the number of ids handed out, the table sends it back to that client,
      and no two clients share one. */
  lemma IdsIdentifyClients(net: Net, states: seq<State>, acts: seq<Action>, k: nat, c: nat, d: nat)
    requires net.Valid() && |net.queueOf| <= TABLE_SIZE
    requires Execution(net, states, acts) && Init(net, states[0]) && k < |states|
    requires c < d < |net.queueOf|
    ensures var s := states[k];
      && |s.clients| == |net.queueOf| && |s.table| == TABLE_SIZE && s.next <= |net.queueOf|
      && (s.clients[c].id.Some? ==> s.clients[c].id.value < s.next && s.next <= TABLE_SIZE
                                    && s.table[s.clients[c].id.value] == net.queueOf[c])
      && (s.clients[c].id.Some? ==> s.clients[c].id != s.clients[d].id)
  {
    var a := Refines(net, states, acts, k);
    assert ClientOk(net, states[k].clients[c], c, a.of[c]) && ClientOk(net, states[k].clients[d], d, a.of[d]);
    SumBounds(a.of, RegisteredW, 0, 1);
  }

  /** The id that a request of type 2 or 3 carries. */
  function RequestId(m: Message): int {
    if m.kind == 2 then Atoi(m.value) else ReadTriple(m.value).0
  }

  /** A request that waits at its sender or in the server's queue. */
  ghost predicate IsRequest(s: State, m: Message) {
    m in s.queue || exists c :: 0 <= c < |s.clients| && s.clients[c].out == Some(m)
  }

  lemma RequestEncodes(net: Net, s: State, a: Tokens, m: Message) returns (c: nat)
    requires Represents(net, s, a) && IsRequest(s, m)
    ensures c < |a.of| == |net.queueOf| && m == Encode(net, c, a.of[c].load)
    ensures a.of[c].place == AtClient || a.of[c].place == InServerQueue
  {
    if m in s.queue {
      var i: nat :| i < |s.queue| && s.queue[i] == m;
      c := a.waiting[i];
    } else {
      c :| 0 <= c < |s.clients| && s.clients[c].out == Some(m);
      assert ClientOk(net, s.clients[c], c, a.of[c]);
    }
  }

  /** Every request of type 2 or 3 carries the id of its sender, which has been assigned and whose table entry
      is the sender's queue. */
  lemma RequestsCarryIds(net: Net, states: seq<State>, acts: seq<Action>, k: nat, m: Message) returns (c: nat)
    requires net.Valid() && |net.queueOf| <= TABLE_SIZE
    requires Execution(net, states, acts) && Init(net, states[0]) && k < |states|
    requires IsRequest(states[k], m) && (m.kind == 2 || m.kind == 3)
    ensures c < |net.queueOf| == |states[k].clients| && |states[k].table| == TABLE_SIZE
    ensures 0 <= RequestId(m) < states[k].next <= TABLE_SIZE
    ensures states[k].clients[c].id == Some(RequestId(m)) && states[k].table[RequestId(m)] == net.queueOf[c]
  {
    var a := Refines(net, states, acts, k);
    var s := states[k];
    c := RequestEncodes(net, s, a, m);
    assert ClientOk(net, s.clients[c], c, a.of[c]);
    SumBounds(a.of, RegisteredW, 0, 1);
    match a.of[c].load
    case Ask(id) => AtoiRoundTrip(id);
    case Verdict(id, x) => TripleRoundTrip(id, x, Flag(x));
    case _ =>
  }

  /** Meaning of the output: a pair (client id, number) is printed at most as often as the server drew that
      number for that client, and never unless the number is prime or below 2. Every drawn pair that is not
      yet judged is pending, and every judged one that passes trial division is printed. */
  lemma PrintedNumbersWereDrawn(net: Net, states: seq<State>, acts: seq<Action>, k: nat, id: int, number: int)
    requires net.Valid() && |net.queueOf| <= TABLE_SIZE
    requires Execution(net, states, acts) && Init(net, states[0]) && k < |states|
    ensures var s := states[k];
      && s.judged[(id, number)] <= s.drawn[(id, number)]
      && (Prime(number) || number < 2 ==> s.printed[(id, number)] == s.judged[(id, number)])
      && (!Prime(number) && 2 <= number ==> s.printed[(id, number)] == 0)
  {
    var a := Refines(net, states, acts, k);
    SumNonNegative(a.of, PendingW((id, number)));
    LooksPrimeExactlyWhen(number);
  }

  // ------------------------------------------------------------- text sizes

  /** The size of `value` in `struct buffer`. */
  const TEXT_SIZE := 32

  /** The largest queue identifier, an `int`. */
  const INT_MAX := 2147483647

  /** A message that a process holds or a queue contains. */
  ghost predicate InTransit(s: State, m: Message) {
    || m in s.queue
    || (s.out.Some? && m == s.out.value.m)
    || exists c :: 0 <= c < |s.clients| && (s.clients[c].out == Some(m) || m in s.clients[c].inbox)
  }

  lemma {:induction false} IntLength(n: nat)
    requires n <= INT_MAX
    ensures |Dec(n)| <= 10
  {
    TenToTheTen();
    DecLength(n, 10, Power10(10));
  }

  lemma TenToTheTen()
    ensures Power10(10) == 10000000000
  {
    assert Power10(5) == 100000;
  }

  lemma EncodeLength(net: Net, c: nat, load: Load)
    requires c < |net.queueOf| && net.queueOf[c] <= INT_MAX
    requires !load.Hello? ==> load.id < TABLE_SIZE
    requires load.Number? || load.Verdict? || load.Ack? ==> load.x <= RAND_MAX
    ensures |Encode(net, c, load).value| < TEXT_SIZE
  {
    match load
    case Hello => IntLength(net.queueOf[c]);
    case Welcome(id) => IntLength(id);
    case Ask(id) => IntLength(id);
    case Number(_, x) => IntLength(x);
    case Verdict(id, x) =>
      IntLength(id);
      IntLength(x);
    case Ack(id, x) =>
      IntLength(id);
      IntLength(x);
  }

  /** Every message comes from the token of its client. */
  lemma TransitEncodes(net: Net, s: State, a: Tokens, m: Message) returns (c: nat)
    requires Represents(net, s, a) && InTransit(s, m)
    ensures c < |a.of| == |net.queueOf| && m == Encode(net, c, a.of[c].load)
  {
    if m in s.queue {
      var i: nat :| i < |s.queue| && s.queue[i] == m;
      c := a.waiting[i];
    } else if s.out.Some? && m == s.out.value.m {
      c := a.serving.value;
    } else {
      c :| 0 <= c < |s.clients| && (s.clients[c].out == Some(m) || m in s.clients[c].inbox);
      assert ClientOk(net, s.clients[c], c, a.of[c]);
    }
  }

  /** The texts of the protocol and their terminators fit the buffers they are copied into: with at most 100 clients
      and `int` queue identifiers, every text in every reachable state is shorter than 32 characters. */
  lemma TextsFit(net: Net, states: seq<State>, acts: seq<Action>, k: nat, m: Message)
    requires net.Valid() && |net.queueOf| <= 100
    requires forall c :: 0 <= c < |net.queueOf| ==> net.queueOf[c] <= 2147483647
    requires Execution(net, states, acts) && Init(net, states[0]) && k < |states| && InTransit(states[k], m)
    ensures |m.value| < 32
  {
    var a := Refines(net, states, acts, k);
    var c := TransitEncodes(net, states[k], a, m);
    var load := a.of[c].load;
    assert IdOf(load).Some? ==> load.id < TABLE_SIZE;
    EncodeLength(net, c, load);
  }

  // --------------------------------------------------- more than 100 clients

  /** `k` clients have joined one after the other, the rest have not started. */
  predicate Joined(net: Net, s: State, k: nat) {
    && s.queue == [] && s.out == None && s.next == k && |s.table| == TABLE_SIZE && !s.badAccess
    && |s.clients| == |net.queueOf|
    && forall c :: k <= c < |s.clients| ==> s.clients[c] == Newcomer(net, c)
  }

  lemma Extend(net: Net, states: seq<State>, acts: seq<Action>, act: Action)
    requires Execution(net, states, acts) && Enabled(net, states[|acts|], act)
    ensures Execution(net, states + [Exec(net, states[|acts|], act)], acts + [act])
  {
    var longer, more := states + [Exec(net, states[|acts|], act)], acts + [act];
    forall k | 0 <= k < |more|
      ensures Enabled(net, longer[k], more[k]) && longer[k + 1] == Exec(net, longer[k], more[k])
    {
      if k < |acts| {
        assert longer[k] == states[k] && more[k] == acts[k] && longer[k + 1] == states[k + 1];
      }
    }
  }

  /** The next client says hello: its request is in the server's queue. */
  lemma SayHello(net: Net, s: State, k: nat)
    requires net.Valid() && Joined(net, s, k) && k < |net.queueOf|
    ensures Enabled(net, s, ClientSend(k))
    ensures var t := Exec(net, s, ClientSend(k));
      && t == s.(queue := [Message(1, Dec(net.queueOf[k]))],
                 clients := s.clients[k := Newcomer(net, k).(out := None)])
      && Enabled(net, t, ServerReceive(0))
  {
    assert [] + [Message(1, Dec(net.queueOf[k]))] == [Message(1, Dec(net.queueOf[k]))];
  }

  lemma Welcomed(net: Net, s: State, k: nat)
    requires net.Valid() && Joined(net, s, k) && k < |net.queueOf| && k < TABLE_SIZE
    ensures Enabled(net, s, ClientSend(k))
    ensures var t := Exec(net, s, ClientSend(k));
      && Enabled(net, t, ServerReceive(0)) && Enabled(net, Exec(net, t, ServerReceive(0)), ServerSend(k))
      && Joined(net, Exec(net, Exec(net, t, ServerReceive(0)), ServerSend(k)), k + 1)
  {
    SayHello(net, s, k);
    AtoiRoundTrip(net.queueOf[k]);
    var u := Exec(net, Exec(net, s, ClientSend(k)), ServerReceive(0));
    assert u.queue == [] && u.next == k + 1;
    assert forall c :: k < c < |u.clients| ==> u.clients[c] == s.clients[c];
  }

  lemma {:induction false} AllJoin(net: Net, k: nat) returns (states: seq<State>, acts: seq<Action>)
    requires net.Valid() && k <= |net.queueOf| && k <= TABLE_SIZE
    ensures Execution(net, states, acts) && Init(net, states[0]) && Joined(net, states[|acts|], k)
  {
    if k == 0 {
      var clients := seq(|net.queueOf|, c requires 0 <= c < |net.queueOf| => Newcomer(net, c));
      var none: multiset<(int, int)> := multiset{};
      var s := State([], None, seq(TABLE_SIZE, _ => 0), 0, clients, none, none, none, false);
      states, acts := [s], [];
    } else {
      states, acts := AllJoin(net, k - 1);
      Welcomed(net, states[|acts|], k - 1);
      var first := states[0];
      Extend(net, states, acts, ClientSend(k - 1));
      states, acts := states + [Exec(net, states[|acts|], ClientSend(k - 1))], acts + [ClientSend(k - 1)];
      Extend(net, states, acts, ServerReceive(0));
      states, acts := states + [Exec(net, states[|acts|], ServerReceive(0))], acts + [ServerReceive(0)];
      Extend(net, states, acts, ServerSend(k - 1));
      states, acts := states + [Exec(net, states[|acts|], ServerSend(k - 1))], acts + [ServerSend(k - 1)];
      assert states[0] == first;
    }
  }

  ghost predicate BadAccessReachable(net: Net) {
    exists states: seq<State>, acts: seq<Action> ::
      Execution(net, states, acts) && Init(net, states[0]) && states[|acts|].badAccess
  }

  /** The server's table has no bound check: it is indexed outside its bounds, or an unset id or entry is read,
      exactly when more than 100 clients can join. */
  lemma BadAccessExactlyWhen(net: Net)
    requires net.Valid()
    ensures BadAccessReachable(net) <==> 100 < |net.queueOf|
  {
    if TABLE_SIZE < |net.queueOf| {
      var states, acts := AllJoin(net, TABLE_SIZE);
      var s := states[|acts|];
      SayHello(net, s, TABLE_SIZE);
      Extend(net, states, acts, ClientSend(TABLE_SIZE));
      var t := Exec(net, s, ClientSend(TABLE_SIZE));
      states, acts := states + [t], acts + [ClientSend(TABLE_SIZE)];
      Extend(net, states, acts, ServerReceive(0));
      states, acts := states + [Exec(net, t, ServerReceive(0))], acts + [ServerReceive(0)];
      assert states[|acts|].badAccess;
    } else if BadAccessReachable(net) {
      var states: seq<State>, acts: seq<Action> :|
        Execution(net, states, acts) && Init(net, states[0]) && states[|acts|].badAccess;
      OneMessagePerClient(net, states, acts, |acts|, 0);
      assert false;
    }
  }
}
