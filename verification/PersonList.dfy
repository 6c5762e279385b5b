/** The doubly linked address list of cw01/zad1. A list is a head pointer; the
    ghost sequence `nodes` that accompanies it names its nodes in order. */
module PersonList {
  import opened CStrings
  import opened Selection

  datatype Field = FIRSTNAME | LASTNAME | BIRTHDATE | EMAIL | PHONE | ADDRESS

  class Node {
    var prev: Node?
    var next: Node?
    // written once, by the constructor
    const firstname: Str
    const lastname: Str
    const birthdate: Str
    const email: Str
    const phone: Str
    const address: Str

    constructor (firstname: Str, lastname: Str, birthdate: Str, email: Str, phone: Str, address: Str)
      ensures prev == null && next == null
      ensures this.firstname == firstname && this.lastname == lastname && this.birthdate == birthdate
      ensures this.email == email && this.phone == phone && this.address == address
    {
      this.next := null;
      this.prev := null;
      this.firstname := firstname;
      this.lastname := lastname;
      this.birthdate := birthdate;
      this.email := email;
      this.phone := phone;
      this.address := address;
    }

    function Get(field: Field): Str {
      match field
      case FIRSTNAME => firstname
      case LASTNAME => lastname
      case BIRTHDATE => birthdate
      case EMAIL => email
      case PHONE => phone
      case ADDRESS => address
    }
  }

  /** The sort key: the selected field. */
  function By(field: Field): Node -> Str {
    (n: Node) => n.Get(field)
  }

  /** The node at position `i`, null beyond both ends. */
  function At(nodes: seq<Node>, i: int): Node? {
    if 0 <= i < |nodes| then nodes[i] else null
  }

  /** `head` leads a well-formed list through exactly `nodes`: acyclic, with `prev` and
      `next` mutually inverse and null at the ends. */
  ghost predicate IsList(head: Node?, nodes: seq<Node>)
    reads nodes
  {
    && head == At(nodes, 0)
    && (forall i, j :: 0 <= i < j < |nodes| ==> nodes[i] != nodes[j])
    && (forall i {:trigger nodes[i].prev} :: 0 <= i < |nodes| ==> nodes[i].prev == At(nodes, i - 1))
    && (forall i {:trigger nodes[i].next} :: 0 <= i < |nodes| ==> nodes[i].next == At(nodes, i + 1))
  }

  /** Lines 34-43. */
  method InsertAtHead(head: Node?, firstname: Str, lastname: Str, birthdate: Str, email: Str, phone: Str,
                      address: Str, ghost nodes: seq<Node>)
    returns (newHead: Node)
    requires IsList(head, nodes)
    modifies nodes
    ensures fresh(newHead) && IsList(newHead, [newHead] + nodes)
    ensures newHead.firstname == firstname && newHead.lastname == lastname && newHead.birthdate == birthdate
    ensures newHead.email == email && newHead.phone == phone && newHead.address == address
  {
    var node := new Node(firstname, lastname, birthdate, email, phone, address);
    if head == null {
      return node;
    }
    head.prev := node;
    node.next := head;
    newHead := node;
  }

  /** Lines 45-51; a one-node list dereferences a null pointer in the source. */
  method RemoveAtHead(head: Node?, ghost nodes: seq<Node>) returns (newHead: Node?)
    requires IsList(head, nodes) && |nodes| != 1
    modifies nodes
    ensures IsList(newHead, if nodes == [] then [] else nodes[1..])
  {
    if head == null {
      return null;
    }
    head.next.prev := null;
    newHead := head.next;
  }

  /** The loop shared by lines 62-63 and 73-74. */
  method LastNode(head: Node, ghost nodes: seq<Node>) returns (tail: Node)
    requires IsList(head, nodes)
    ensures nodes != [] && tail == nodes[|nodes| - 1]
  {
    tail := head;
    ghost var i := 0;
    while tail.next != null
      invariant 0 <= i < |nodes| && tail == nodes[i]
      decreases |nodes| - i
    {
      tail := tail.next;
      i := i + 1;
    }
  }

  /** Lines 54-66; on an empty list only the local copy of the head changes and the node is lost. */
  method InsertAtTail(head: Node?, firstname: Str, lastname: Str, birthdate: Str, email: Str, phone: Str,
                      address: Str, ghost nodes: seq<Node>)
    returns (ghost added: seq<Node>)
    requires IsList(head, nodes)
    modifies nodes
    ensures fresh(added) && IsList(head, nodes + added)
    ensures |added| == if head == null then 0 else 1
    ensures forall n :: n in added ==>
      && n.firstname == firstname && n.lastname == lastname && n.birthdate == birthdate
      && n.email == email && n.phone == phone && n.address == address
  {
    var node := new Node(firstname, lastname, birthdate, email, phone, address);
    if head == null {
      return [];
    }
    var tail := LastNode(head, nodes);
    tail.next := node;
    node.prev := tail;
    added := [node];
  }

  /** Lines 68-77; a one-node list dereferences a null pointer in the source. */
  method RemoveAtTail(head: Node?, ghost nodes: seq<Node>)
    requires IsList(head, nodes) && |nodes| != 1
    modifies nodes
    ensures IsList(head, if nodes == [] then [] else nodes[..|nodes| - 1])
  {
    if head == null {
      return;
    }
    var tail := LastNode(head, nodes);
    tail.prev.next := null;
  }

  /** Lines 79-108: the first node whose field equals `x`, or null when there is none. */
  method Find(x: Str, head: Node?, field: Field, ghost nodes: seq<Node>) returns (found: Node?)
    requires IsList(head, nodes)
    ensures found == FirstOfKey(nodes, By(field), x)
    ensures found != null ==>
      && found in nodes
      && match field
         case FIRSTNAME => found.firstname == x
         case LASTNAME => found.lastname == x
         case BIRTHDATE => found.birthdate == x
         case EMAIL => found.email == x
         case PHONE => found.phone == x
         case ADDRESS => found.address == x
    ensures found == null && field.FIRSTNAME? ==> forall i :: 0 <= i < |nodes| ==> nodes[i].firstname != x
    ensures found == null && field.LASTNAME? ==> forall i :: 0 <= i < |nodes| ==> nodes[i].lastname != x
    ensures found == null && field.BIRTHDATE? ==> forall i :: 0 <= i < |nodes| ==> nodes[i].birthdate != x
    ensures found == null && field.EMAIL? ==> forall i :: 0 <= i < |nodes| ==> nodes[i].email != x
    ensures found == null && field.PHONE? ==> forall i :: 0 <= i < |nodes| ==> nodes[i].phone != x
    ensures found == null && field.ADDRESS? ==> forall i :: 0 <= i < |nodes| ==> nodes[i].address != x
  {
    found := head;
    ghost var i := 0;
    while found != null
      invariant 0 <= i <= |nodes|
      invariant found == At(nodes, i)
      invariant forall j :: 0 <= j < i ==> nodes[j].Get(field) != x
      invariant OfKey(nodes, By(field), x) == OfKey(nodes[i..], By(field), x)
      decreases |nodes| - i
    {
      StrCmpAntisymmetric(found.Get(field), x);
      assert nodes[i..][1..] == nodes[i + 1..];
      if StrCmp(found.Get(field), x) == 0 {
        return;
      }
      found := found.next;
      i := i + 1;
    }
  }

  function FirstOfKey(nodes: seq<Node>, key: Node -> Str, x: Str): Node? {
    var matches := OfKey(nodes, key, x);
    if matches == [] then null else matches[0]
  }

  /** The scan of lines 111-151. */
  method FindMax(head: Node?, field: Field, ghost nodes: seq<Node>)
    returns (prev: Node?, max: Node?, ghost m: int)
    requires IsList(head, nodes)
    ensures nodes == [] ==> max == null
    ensures nodes != [] ==> m == FirstMax(nodes, By(field)) && max == nodes[m] && prev == At(nodes, m - 1)
  {
    prev := null;
    max := head;
    var current := head;
    ghost var i := 0;
    m := 0;
    while current != null
      invariant 0 <= i <= |nodes| && current == At(nodes, i)
      invariant 0 <= m && (nodes != [] ==> m < |nodes|)
      invariant max == At(nodes, m) && prev == At(nodes, m - 1)
      invariant i == 0 ==> m == 0
      invariant i > 0 ==> IsFirstMax(nodes[..i], By(field), m)
      decreases |nodes| - i
    {
      if i == 0 {
        StrCmpAntisymmetric(current.Get(field), current.Get(field));
      } else {
        FirstMaxExtends(nodes, By(field), i, m);
      }
      if StrCmp(current.Get(field), max.Get(field)) > 0 {
        prev := current.prev;
        max := current;
        m := i;
      }
      current := current.next;
      i := i + 1;
    }
    assert nodes[..i] == nodes;
    if nodes != [] {
      FirstMaxUnique(nodes, By(field), m);
    }
  }

  /** Position `k` of what is left, seen in the whole. */
  function Skip(m: int, k: int): int {
    if k < m then k else k + 1
  }

  lemma WithoutAt(nodes: seq<Node>, m: nat, k: int)
    requires m < |nodes|
    ensures At(Without(nodes, m), k) == At(nodes, if k < 0 then -1 else Skip(m, k))
  {
    var w := Without(nodes, m);
    assert |w| == |nodes| - 1;
    if 0 <= k < |w| {
      assert w[k] == nodes[Skip(m, k)];
    }
  }

  /** One node with position `m` bypassed. */
  lemma BypassedLink(nodes: seq<Node>, m: nat, k: nat)
    requires m < |nodes| && k < |nodes| - 1
    requires var i := Skip(m, k);
      && nodes[i].prev == At(nodes, if i == m + 1 then m - 1 else i - 1)
      && nodes[i].next == At(nodes, if i == m - 1 then m + 1 else i + 1)
    ensures var w := Without(nodes, m);
      k < |w| && w[k].prev == At(w, k - 1) && w[k].next == At(w, k + 1)
  {
    WithoutAt(nodes, m, k - 1);
    WithoutAt(nodes, m, k);
    WithoutAt(nodes, m, k + 1);
  }

  lemma WithoutDistinct(nodes: seq<Node>, m: nat)
    requires m < |nodes|
    requires forall i, j :: 0 <= i < j < |nodes| ==> nodes[i] != nodes[j]
    ensures var w := Without(nodes, m);
      forall i, j :: 0 <= i < j < |w| ==> w[i] != w[j]
  {
  }

  /** The links of `nodes` with position `m` bypassed. */
  ghost predicate Bypassed(nodes: seq<Node>, m: int)
    reads nodes
  {
    && (forall i {:trigger nodes[i].prev} :: 0 <= i < |nodes| && i != m ==>
         nodes[i].prev == At(nodes, if i == m + 1 then m - 1 else i - 1))
    && (forall i {:trigger nodes[i].next} :: 0 <= i < |nodes| && i != m ==>
         nodes[i].next == At(nodes, if i == m - 1 then m + 1 else i + 1))
  }

  lemma BypassedLinks(nodes: seq<Node>, m: nat)
    requires m < |nodes| && Bypassed(nodes, m)
    ensures var w := Without(nodes, m);
      forall k :: 0 <= k < |w| ==> w[k].prev == At(w, k - 1) && w[k].next == At(w, k + 1)
  {
    forall k | 0 <= k < |Without(nodes, m)|
      ensures var w := Without(nodes, m); w[k].prev == At(w, k - 1) && w[k].next == At(w, k + 1)
    {
      BypassedLink(nodes, m, k);
    }
  }

  lemma BypassedIsList(nodes: seq<Node>, m: int, newHead: Node?)
    requires 0 <= m < |nodes| && newHead == At(nodes, if m == 0 then 1 else 0)
    requires forall i, j :: 0 <= i < j < |nodes| ==> nodes[i] != nodes[j]
    requires Bypassed(nodes, m)
    ensures IsList(newHead, Without(nodes, m))
  {
    WithoutAt(nodes, m, 0);
    WithoutDistinct(nodes, m);
    BypassedLinks(nodes, m);
  }

  /** Lines 153-157: the node at position `m` is bypassed and unlinked. */
  method Unlink(head: Node, prev: Node?, max: Node, ghost nodes: seq<Node>, ghost m: nat) returns (newHead: Node?)
    requires IsList(head, nodes) && m < |nodes| && max == nodes[m] && prev == At(nodes, m - 1)
    modifies nodes
    ensures Bypassed(nodes, m) && max.prev == null && max.next == null
    ensures newHead == At(nodes, if m == 0 then 1 else 0)
  {
    assert nodes[m].prev == At(nodes, m - 1) && nodes[m].next == At(nodes, m + 1);
    newHead := head;
    if prev == null {
      newHead := newHead.next;
    }
    if prev != null {
      prev.next := max.next;
    }
    if max.next != null {
      max.next.prev := max.prev;
    }
    max.next := null;
    max.prev := null;
  }

  /** Lines 110-160: the first maximum is spliced out, everything else keeps its order. */
  method RemoveMax(head: Node?, field: Field, ghost nodes: seq<Node>) returns (newHead: Node?, max: Node?)
    requires IsList(head, nodes)
    modifies nodes
    ensures nodes == [] ==> max == null && newHead == null
    ensures nodes != [] ==>
      && var m := FirstMax(nodes, By(field));
      && max == nodes[m] && max.prev == null && max.next == null
      && IsList(newHead, Without(nodes, m))
  {
    var prev;
    ghost var m: int;
    prev, max, m := FindMax(head, field, nodes);
    newHead := head;
    if max != null {
      newHead := Unlink(head, prev, max, nodes, m);
      BypassedIsList(nodes, m, newHead);
    }
  }

  /** Lines 169-176: an unlinked node goes in front of the sorted list. */
  method Prepend(inserted: Node, sorted: Node?, ghost done: seq<Node>)
    requires IsList(sorted, done) && inserted !in done
    requires inserted.prev == null && inserted.next == null
    modifies inserted, done
    ensures IsList(inserted, [inserted] + done)
  {
    if sorted != null {
      inserted.next := sorted;
      sorted.prev := inserted;
    }
  }

  /** The loop invariant on the sequences: `rest` and `done` split `nodes`, and what is left to do gives the result. */
  predicate Progress(nodes: seq<Node>, rest: seq<Node>, done: seq<Node>, field: Field) {
    && (forall i :: 0 <= i < |rest| ==> rest[i] in nodes && rest[i] !in done)
    && (forall i :: 0 <= i < |done| ==> done[i] in nodes)
    && SelectSort(rest, By(field)) + done == SelectSort(nodes, By(field))
  }

  lemma {:induction false} SelectStep(nodes: seq<Node>, rest: seq<Node>, done: seq<Node>, field: Field)
    requires rest != [] && SelectSort(rest, By(field)) + done == SelectSort(nodes, By(field))
    ensures var m := FirstMax(rest, By(field));
      SelectSort(Without(rest, m), By(field)) + ([rest[m]] + done) == SelectSort(nodes, By(field))
  {
    var m := FirstMax(rest, By(field));
    var others := SelectSort(Without(rest, m), By(field));
    AppendOne(others, rest[m], done);
  }

  lemma AppendOne(others: seq<Node>, x: Node, done: seq<Node>)
    ensures (others + [x]) + done == others + ([x] + done)
  {
  }

  lemma WithoutMember(rest: seq<Node>, m: nat, i: nat)
    requires m < |rest| && i < |rest| - 1
    requires forall i, j :: 0 <= i < j < |rest| ==> rest[i] != rest[j]
    ensures Without(rest, m)[i] in rest && Without(rest, m)[i] != rest[m]
  {
    var j := if i < m then i else i + 1;
    assert Without(rest, m)[i] == rest[j];
  }

  /** What is left after the maximum has gone stays apart from it and from what is done. */
  lemma LeftApart(nodes: seq<Node>, rest: seq<Node>, done: seq<Node>, m: nat)
    requires m < |rest|
    requires forall i, j :: 0 <= i < j < |rest| ==> rest[i] != rest[j]
    requires forall i :: 0 <= i < |rest| ==> rest[i] in nodes && rest[i] !in done
    ensures var left := Without(rest, m);
      forall i :: 0 <= i < |left| ==> left[i] in nodes && left[i] != rest[m] && left[i] !in done
  {
    var left := Without(rest, m);
    forall i | 0 <= i < |left|
      ensures left[i] in nodes && left[i] != rest[m] && left[i] !in done
    {
      WithoutMember(rest, m, i);
    }
  }

  /** One pass of the loop on the sequences. */
  lemma {:induction false} ProgressStep(nodes: seq<Node>, rest: seq<Node>, done: seq<Node>, field: Field)
    requires Progress(nodes, rest, done, field) && rest != []
    requires forall i, j :: 0 <= i < j < |rest| ==> rest[i] != rest[j]
    ensures var m := FirstMax(rest, By(field));
      && Progress(nodes, Without(rest, m), [rest[m]] + done, field)
      && (forall i :: 0 <= i < |rest| - 1 ==> Without(rest, m)[i] != rest[m] && Without(rest, m)[i] !in done)
  {
    var m := FirstMax(rest, By(field));
    SelectStep(nodes, rest, done, field);
    LeftApart(nodes, rest, done, m);
    var left, more := Without(rest, m), [rest[m]] + done;
    forall i | 0 <= i < |left|
      ensures left[i] in nodes && left[i] !in more
    {
    }
    forall i | 0 <= i < |more|
      ensures more[i] in nodes
    {
      assert 0 < i ==> more[i] == done[i - 1];
    }
  }

  /** The loop body, lines 167-176. */
  method MoveMax(left: Node, sorted: Node?, field: Field, ghost rest: seq<Node>, ghost done: seq<Node>, ghost m: nat)
    returns (newLeft: Node?, newSorted: Node)
    requires IsList(left, rest) && IsList(sorted, done) && rest != [] && m == FirstMax(rest, By(field))
    requires rest[m] !in done
    requires forall i :: 0 <= i < |rest| - 1 ==> Without(rest, m)[i] != rest[m] && Without(rest, m)[i] !in done
    requires forall i :: 0 <= i < |rest| ==> rest[i] !in done
    modifies rest, done
    ensures newSorted == rest[m] && IsList(newLeft, Without(rest, m)) && IsList(newSorted, [newSorted] + done)
  {
    var max;
    newLeft, max := RemoveMax(left, field, rest);
    newSorted := max;
    Prepend(newSorted, sorted, done);
  }

  /** Lines 162-179: the same nodes, relinked in the order of the abstract selection sort. */
  method Sort(head: Node?, field: Field, ghost nodes: seq<Node>) returns (newHead: Node?)
    requires IsList(head, nodes)
    modifies nodes
    ensures IsList(newHead, SelectSort(nodes, By(field)))
    ensures multiset(SelectSort(nodes, By(field))) == multiset(nodes)
  {
    var sorted: Node? := null;
    var left := head;
    ghost var rest, done: seq<Node> := nodes, [];
    while left != null
      invariant IsList(left, rest) && IsList(sorted, done) && Progress(nodes, rest, done, field)
      decreases |rest|
    {
      ghost var m := FirstMax(rest, By(field));
      ProgressStep(nodes, rest, done, field);
      left, sorted := MoveMax(left, sorted, field, rest, done, m);
      rest, done := Without(rest, m), [sorted] + done;
    }
    newHead := sorted;
    SelectSortPermutes(nodes, By(field));
    assert done == SelectSort(nodes, By(field));
  }

  /** The list is sorted by the field that was asked for. */
  lemma {:induction false} SortsByTheField(nodes: seq<Node>, field: Field)
    ensures var s := SelectSort(nodes, By(field));
      match field
      case FIRSTNAME => forall i, j :: 0 <= i < j < |s| ==> StrCmp(s[i].firstname, s[j].firstname) <= 0
      case LASTNAME => forall i, j :: 0 <= i < j < |s| ==> StrCmp(s[i].lastname, s[j].lastname) <= 0
      case BIRTHDATE => forall i, j :: 0 <= i < j < |s| ==> StrCmp(s[i].birthdate, s[j].birthdate) <= 0
      case EMAIL => forall i, j :: 0 <= i < j < |s| ==> StrCmp(s[i].email, s[j].email) <= 0
      case PHONE => forall i, j :: 0 <= i < j < |s| ==> StrCmp(s[i].phone, s[j].phone) <= 0
      case ADDRESS => forall i, j :: 0 <= i < j < |s| ==> StrCmp(s[i].address, s[j].address) <= 0
  {
    SelectSortSorted(nodes, By(field));
    var s := SelectSort(nodes, By(field));
    assert forall i, j :: 0 <= i < j < |s| ==> Le(By(field)(s[i]), By(field)(s[j]));
  }

  /** After sorting, `find` returns the node that was last among its equals before. */
  lemma {:induction false} FindAfterSort(nodes: seq<Node>, field: Field, x: Str)
    ensures var matches := OfKey(nodes, By(field), x);
      FirstOfKey(SelectSort(nodes, By(field)), By(field), x) ==
        if matches == [] then null else matches[|matches| - 1]
  {
    SelectSortTies(nodes, By(field), x);
    ReverseTwice(OfKey(nodes, By(field), x));
    ReverseFirst(OfKey(nodes, By(field), x));
  }

  lemma {:induction false} ReverseFirst<T>(s: seq<T>)
    ensures |Reverse(s)| == |s|
    ensures s != [] ==> Reverse(s)[0] == s[|s| - 1]
  {
    if s == [] {
    } else {
      ReverseFirst(s[1..]);
    }
  }

  /** Sorting a real list twice by the same field sorts it stably; a third pass repeats the first. */
  method SortTwice(head: Node?, field: Field, ghost nodes: seq<Node>) returns (newHead: Node?)
    requires IsList(head, nodes)
    modifies nodes
    ensures IsList(newHead, StableSort(nodes, By(field)))
  {
    ghost var once := SelectSort(nodes, By(field));
    newHead := Sort(head, field, nodes);
    forall i | 0 <= i < |once|
      ensures once[i] in nodes
    {
      assert once[i] in multiset(once);
    }
    newHead := Sort(newHead, field, once);
    SelectSortTwice(nodes, By(field));
  }
}
