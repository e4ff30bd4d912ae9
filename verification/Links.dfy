/** The intrusive queues: doubly linked lists through the PCBs themselves. All queues share the one pair of links each
    PCB has, and each queue is only a head and a tail. */
module Links {
  import opened KernelModel

  /** The link fields of a PCB. `on` records, for the proofs, the queue the PCB is linked into. */
  class Node {
    const slot: Slot
    ghost var on: Option<QueueId>
    var prev: Node?
    var next: Node?

    constructor (slot: Slot)
      ensures this.slot == slot && on == None
    {
      this.slot := slot;
      on := None;
      prev, next := null, null;
    }
  }

  /** A queue. `items` is the sequence its links represent. */
  class Queue {
    ghost const id: QueueId
    ghost var items: seq<Node>
    var head: Node?
    var tail: Node?

    static ghost function At(items: seq<Node>, k: int): Node? {
      if 0 <= k < |items| then items[k] else null
    }

    /** Both ends and the forward links agree with `items`. */
    ghost predicate Forward()
      reads this, items
    {
      && (forall j, k | 0 <= j < k < |items| :: items[j] != items[k])
      && (forall k {:trigger items[k].on} | 0 <= k < |items| :: items[k].on == Some(id))
      && head == At(items, 0)
      && tail == At(items, |items| - 1)
      && (forall k {:trigger items[k].next} | 0 <= k < |items| :: items[k].next == At(items, k + 1))
    }

    /** Both ends and both directions of the links agree with `items`. */
    ghost predicate Valid()
      reads this, items
    {
      && Forward()
      && (forall k {:trigger items[k].prev} | 0 <= k < |items| :: items[k].prev == At(items, k - 1))
    }

    lemma EmptyIsValid()
      requires items == [] && head == null == tail
      ensures Valid()
    {
    }

    ghost predicate SameEnds(head: Node?, tail: Node?, items: seq<Node>)
      reads this
    {
      this.head == head && this.tail == tail && this.items == items
    }

    twostate lemma Untouched()
      requires old(Valid()) && SameEnds(old(head), old(tail), old(items))
      requires forall n | n in items :: n.on == old(n.on) && n.next == old(n.next) && n.prev == old(n.prev)
      ensures Valid()
    {
    }

    constructor (ghost id: QueueId)
      ensures this.id == id && Valid() && items == [] && head == null == tail
    {
      this.id := id;
      items := [];
      head, tail := null, null;
    }

    /** Forgets whatever the queue held. */
    method Init()
      modifies this
      ensures Valid() && items == []
    {
      head, tail := null, null;
      items := [];
    }

    method IsEmpty() returns (empty: bool)
      requires Valid()
      ensures empty <==> items == []
    {
      empty := head == null;
    }

    method Push(item: Node)
      requires Forward() && item.on == None
      modifies this, items, item
      ensures Forward() && items == old(items) + [item] && item.on == Some(id)
      ensures old(Valid()) ==> Valid()
      ensures forall n | n in old(items) :: n.on == old(n.on)
    {
      if head == null {
        head := item;
        tail := item;
        item.next := null;
        item.prev := null;
      } else {
        tail.next := item;
        item.next := null;
        item.prev := tail;
        tail := item;
      }
      item.on := Some(id);
      items := items + [item];
    }

    method Dequeue() returns (item: Node)
      requires Forward() && items != []
      modifies this, items
      ensures Forward() && item == old(items)[0] && items == old(items)[1..]
      ensures old(Valid()) ==> Valid()
      ensures item.on == None && forall n | n in old(items) && n != item :: n.on == old(n.on)
    {
      item := head;
      assert items[0].next == At(items, 1) && items[0].on == Some(id);
      if item.next == null {
        head, tail := null, null;
      } else {
        head := head.next;
        head.prev := null;
      }
      item.prev := null;
      item.next := null;
      item.on := None;
      items := items[1..];
    }

    /** When the neighbours of an element have been linked to each other, the sequence without it is linked. */
    static lemma BridgedNext(a: seq<Node>, k: nat)
      requires k < |a| && forall i, j | 0 <= i < j < |a| :: a[i] != a[j]
      requires forall j {:trigger a[j].next} | 0 <= j < |a| && j != k ::
        a[j].next == At(a, if j == k - 1 then k + 1 else j + 1)
      ensures var b := a[..k] + a[k + 1..];
        && (forall i, j | 0 <= i < j < |b| :: b[i] != b[j])
        && (forall j {:trigger b[j].next} | 0 <= j < |b| :: b[j].next == At(b, j + 1))
        && forall n | n in b :: n in a && n != a[k]
    {
      var b := a[..k] + a[k + 1..];
      assert forall j | 0 <= j < |b| :: b[j] == a[if j < k then j else j + 1];
      forall j | 0 <= j < |b|
        ensures b[j].next == At(b, j + 1)
      {
        assert b[j] == a[if j < k then j else j + 1];
      }
      forall n | n in b
        ensures n in a && n != a[k]
      {
        var j :| 0 <= j < |b| && b[j] == n;
        assert b[j] == a[if j < k then j else j + 1];
      }
    }

    static lemma BridgedPrev(a: seq<Node>, k: nat)
      requires k < |a|
      requires forall j {:trigger a[j].prev} | 0 <= j < |a| && j != k ::
        a[j].prev == At(a, if j == k + 1 then k - 1 else j - 1)
      ensures var b := a[..k] + a[k + 1..];
        forall j {:trigger b[j].prev} | 0 <= j < |b| :: b[j].prev == At(b, j - 1)
    {
      var b := a[..k] + a[k + 1..];
      forall j | 0 <= j < |b|
        ensures b[j].prev == At(b, j - 1)
      {
        assert b[j] == a[if j < k then j else j + 1];
      }
    }

    /** Links the neighbours of an element, or the ends of the queue, past it. */
    method Bypass(item: Node, ghost k: nat)
      requires Valid() && k < |items| && items[k] == item
      modifies this`head, this`tail, items`next, items`prev
      ensures head == if k == 0 then At(items, 1) else items[0]
      ensures tail == if k == |items| - 1 then At(items, k - 1) else items[|items| - 1]
      ensures forall j {:trigger items[j].next} | 0 <= j < |items| && j != k ::
        items[j].next == At(items, if j == k - 1 then k + 1 else j + 1)
      ensures forall j {:trigger items[j].prev} | 0 <= j < |items| && j != k ::
        items[j].prev == At(items, if j == k + 1 then k - 1 else j - 1)
    {
      assert head == items[0] && tail == items[|items| - 1];
      assert item.next == At(items, k + 1) && item.prev == At(items, k - 1);
      if item == head && item == tail {
        head := null;
        tail := null;
      } else if item == head {
        head := item.next;
        head.prev := null;
      } else if item == tail {
        tail := item.prev;
        tail.next := null;
      } else {
        item.prev.next := item.next;
        item.next.prev := item.prev;
      }
    }

    static lemma Without(a: seq<Node>, k: nat)
      requires k < |a| && forall i, j | 0 <= i < j < |a| :: a[i] != a[j]
      ensures var b := a[..k] + a[k + 1..];
        a[k] !in b && forall j | 0 <= j < |b| :: b[j] == a[if j < k then j else j + 1]
    {
    }

    /** An element leaves the queue, after its neighbours have been linked past it or not. */
    method Detach(item: Node, ghost rest: seq<Node>)
      requires item !in rest
      modifies this`items, item
      ensures items == rest && item.prev == null && item.next == null && item.on == None
    {
      item.prev := null;
      item.next := null;
      item.on := None;
      items := rest;
    }

    /** Unlinks an element, wherever in the queue it is, and returns its successor. */
    method Remove(item: Node, ghost k: nat) returns (next: Node?)
      requires Valid() && k < |items| && items[k] == item
      modifies this, items
      ensures Valid() && items == old(items)[..k] + old(items)[k + 1..]
      ensures next == At(old(items), k + 1) && item.next == null
      ensures item.on == None && forall n | n in old(items) && n != item :: n.on == old(n.on)
    {
      assert items[k].next == At(items, k + 1);
      next := item.next;
      Bypass(item, k);
      BridgedNext(items, k);
      BridgedPrev(items, k);
      Without(items, k);
      Detach(item, items[..k] + items[k + 1..]);
    }

    /** The unlinking to the letter: the last write goes through the `next` of slot 0, which is never linked, and so
        reaches no PCB. */
    method BypassAsWritten(item: Node, ghost k: nat)
      requires Forward() && k < |items| && items[k] == item && (k > 0 ==> item.prev != null)
      modifies this`head, this`tail, items`next, items`prev, {item.prev}`next
      ensures head == if k == 0 then At(items, 1) else items[0]
      ensures tail == if k < |items| - 1 then items[|items| - 1] else if k == 0 then null else old(item.prev)
      ensures forall j {:trigger items[j].next} | 0 <= j < |items| && j != k ::
        items[j].next == At(items, if k > 0 && items[j] == old(item.prev) then k + 1 else j + 1)
      ensures forall j {:trigger items[j].prev} | 0 <= j < |items| ::
        items[j].prev == if k == 0 && j == 1 then null else old(items[j].prev)
    {
      assert item.next == At(items, k + 1) && head == items[0] && tail == items[|items| - 1];
      if item == head && item == tail {
        head := null;
        tail := null;
      } else if item == head {
        head := item.next;
        head.prev := null;
      } else if item == tail {
        tail := item.prev;
        tail.next := null;
      } else {
        item.prev.next := item.next;
      }
    }

    /** What the unlinking makes of the links of the remaining elements. */
    method CutAsWritten(item: Node, ghost k: nat)
      requires Forward() && k < |items| && items[k] == item && (k > 0 ==> item.prev != null)
      modifies this, items, {item.prev}
      ensures items == old(items)[..k] + old(items)[k + 1..]
      ensures item.on == None && item.next == null && item.prev == null
      ensures head == if k == 0 then At(old(items), 1) else old(items)[0]
      ensures tail ==
        if k < |old(items)| - 1 then old(items)[|old(items)| - 1] else if k == 0 then null else old(item.prev)
      ensures forall j {:trigger items[j].on} | 0 <= j < |items| :: items[j].on == Some(id)
      ensures forall j {:trigger items[j].next} | 0 <= j < |items| ::
        items[j].next ==
          if k > 0 && items[j] == old(item.prev) then At(items, k) else if j == k - 1 then item else At(items, j + 1)
      ensures forall j {:trigger items[j].prev} | 0 <= j < |items| ::
        items[j].prev == if k == 0 && j == 0 then null else old(items[if j < k then j else j + 1].prev)
    {
      BypassAsWritten(item, k);
      Without(items, k);
      Detach(item, items[..k] + items[k + 1..]);
    }

    /** The removal to the letter. A consistent queue stays so exactly if the element was first or last; otherwise its
        successor goes on pointing back to it, while the ends and the forward links are right. What an element points
        back to matters when it is removed itself: as the last one it makes that the new tail, and in the middle, if
        that is not in the queue, the element before it goes on pointing to it and it points nowhere. */
    method RemoveAsWritten(item: Node, ghost k: nat)
      requires Forward() && k < |items| && items[k] == item && (k > 0 ==> item.prev != null)
      modifies this, items, {item.prev}
      ensures items == old(items)[..k] + old(items)[k + 1..] && item.on == None
      ensures old(item.prev) == At(old(items), k - 1) ==> Forward()
      ensures old(Valid()) ==> (Valid() <==> k == 0 || k == |old(items)| - 1)
      ensures old(Valid()) && 0 < k < |old(items)| - 1 ==> items[k] == old(items)[k + 1] && items[k].prev == item
      ensures k == |old(items)| - 1 > 0 ==> head == old(head) && tail == old(item.prev)
      ensures 0 < k < |old(items)| - 1 && old(item.prev) !in old(items) ==>
        head == old(head) && items[k - 1].next == item && item.next == null
    {
      ghost var was, a := Valid(), items;
      CutAsWritten(item, k);
      Without(a, k);
      if was && 0 < k < |a| - 1 {
        assert items[k].prev == item;
      }
    }

    /** An element and then the one behind it, the last: the tail is then an element that has left the queue. */
    method RemoveTwoAsWritten(item: Node, last: Node, ghost k: nat)
      requires Valid() && 0 < k == |items| - 2 && items[k] == item && items[k + 1] == last
      modifies this, items
      ensures items == old(items)[..k] && item !in items && tail == item
    {
      RemoveAsWritten(item, k);
      RemoveAsWritten(last, k);
    }
  }

  /** All queues over one table of PCBs. `items` is what they hold, as slots. */
  class QueueTable {
    const nodes: seq<Node>
    const queues: map<QueueId, Queue>
    ghost var items: map<QueueId, seq<Slot>>
    ghost const Repr: set<object>

    static ghost function SlotsIn(items: map<QueueId, seq<Slot>>, id: QueueId): seq<Slot> {
      if id in items then items[id] else []
    }

    ghost function Slots(id: QueueId): seq<Slot>
      reads `items
    {
      SlotsIn(items, id)
    }

    ghost predicate Layout() {
      && this !in Repr && |nodes| == NUM_MAX_TASK
      && (forall i: Slot :: nodes[i].slot == i && nodes[i] in Repr)
      && (forall id | id in queues :: queues[id].id == id && queues[id] in Repr)
    }

    ghost predicate Valid()
      reads `items, Repr
    {
      Layout() && Matches(items)
    }

    /** This queue is well formed and holds these slots. */
    ghost predicate Fits(q: Queue, slots: seq<Slot>)
      requires |nodes| == NUM_MAX_TASK
      reads q, q.items
    {
      && |q.items| == |slots|
      && (forall k | 0 <= k < |slots| :: q.items[k] == nodes[slots[k]])
      && q.Valid()
    }

    /** Every queue is well formed and holds what the map says. */
    ghost predicate Matches(items: map<QueueId, seq<Slot>>)
      requires Layout()
      reads Repr
    {
      && (forall id, n | id in queues && n in queues[id].items :: n in Repr)
      && (forall id | id in queues :: Fits(queues[id], SlotsIn(items, id)))
    }

    static method NewNodes() returns (ns: seq<Node>)
      ensures |ns| == NUM_MAX_TASK
      ensures forall i: Slot :: fresh(ns[i]) && ns[i].slot == i && ns[i].on == None
    {
      ns := [];
      while |ns| < NUM_MAX_TASK
        invariant |ns| <= NUM_MAX_TASK
        invariant forall i | 0 <= i < |ns| :: fresh(ns[i]) && ns[i].slot == i && ns[i].on == None
      {
        var n := new Node(|ns|);
        ns := ns + [n];
      }
    }

    static method NewQueues(ids: set<QueueId>) returns (qs: map<QueueId, Queue>)
      ensures qs.Keys == ids
      ensures forall id | id in ids ::
        fresh(qs[id]) && qs[id].id == id && qs[id].items == [] && qs[id].head == null == qs[id].tail
    {
      qs := map[];
      var todo := ids;
      while todo != {}
        invariant todo <= ids && qs.Keys == ids - todo
        invariant forall id | id in qs ::
          fresh(qs[id]) && qs[id].id == id && qs[id].items == [] && qs[id].head == null == qs[id].tail
      {
        var id :| id in todo;
        var q := new Queue(id);
        qs := qs[id := q];
        todo := todo - {id};
      }
    }

    /** Empty queues of these names over a table of PCBs that are in no queue. */
    constructor (ids: set<QueueId>)
      ensures Valid() && fresh(Repr) && queues.Keys == ids && items == map[]
      ensures forall i: Slot :: nodes[i].on == None
    {
      var ns := NewNodes();
      var qs := NewQueues(ids);
      nodes := ns;
      queues := qs;
      items := map[];
      ghost var all: set<object> := (set n: Node | n in ns);
      Repr := all + (set id | id in qs :: qs[id]);
      new;
      forall id | id in queues
        ensures Fits(queues[id], [])
      {
        queues[id].EmptyIsValid();
      }
      hide Queue.Valid;
    }

    method IsEmpty(id: QueueId) returns (empty: bool)
      requires Valid() && id in queues
      ensures empty <==> Slots(id) == []
    {
      assert Fits(queues[id], Slots(id));
      empty := queues[id].IsEmpty();
    }

    /** All queues match if one holds these slots and the others hold what they held. */
    lemma Assemble(items: map<QueueId, seq<Slot>>, id: QueueId, slots: seq<Slot>)
      requires Layout() && id in queues && Fits(queues[id], slots)
      requires forall o | o in queues && o != id :: Fits(queues[o], SlotsIn(items, o))
      ensures Matches(items[id := slots])
    {
      var m := items[id := slots];
      forall o | o in queues
        ensures Fits(queues[o], SlotsIn(m, o)) && forall n | n in queues[o].items :: n in Repr
      {
        assert Fits(queues[o], SlotsIn(m, o));
        forall n | n in queues[o].items
          ensures n in Repr
        {
          var k :| 0 <= k < |queues[o].items| && queues[o].items[k] == n;
          assert n == nodes[SlotsIn(m, o)[k]];
        }
      }
    }

    /** Forgets what a queue held; PCBs that were in it keep their links, and every other queue is untouched. */
    method Init(id: QueueId)
      requires Valid() && id in queues
      modifies `items, Repr
      ensures Valid() && items == old(items)[id := []]
      ensures forall j: Slot :: nodes[j].on == old(nodes[j].on)
    {
      queues[id].Init();
      forall o | o in queues && o != id
        ensures Fits(queues[o], Slots(o))
      {
        assert queues[o] != queues[id] && queues[o].items == old(queues[o].items);
        assert old(Fits(queues[o], Slots(o)));
        queues[o].Untouched();
      }
      Assemble(items, id, []);
      items := items[id := []];
    }

    ghost function NodeAt(slots: seq<Slot>, k: int): Node?
      requires |nodes| == NUM_MAX_TASK
    {
      if 0 <= k < |slots| then nodes[slots[k]] else null
    }

    lemma HeadIs(id: QueueId)
      requires Valid() && id in queues
      ensures queues[id].head == NodeAt(Slots(id), 0)
    {
      assert Fits(queues[id], Slots(id));
    }

    lemma NextIs(id: QueueId, k: nat)
      requires Valid() && id in queues && k < |Slots(id)|
      ensures nodes[Slots(id)[k]].next == NodeAt(Slots(id), k + 1)
    {
      assert Fits(queues[id], Slots(id));
      assert queues[id].items[k].next == Queue.At(queues[id].items, k + 1);
    }

    /** No PCB is in both queues. */
    ghost predicate Apart(id: QueueId, o: QueueId)
      requires id in queues && o in queues
      reads queues[id], queues[o], queues[o].items
    {
      && queues[id] != queues[o]
      && forall n | n in queues[o].items :: n !in queues[id].items && n.on != None
    }

    lemma QueuesAreApart(id: QueueId, o: QueueId)
      requires Valid() && id in queues && o in queues && id != o
      ensures Apart(id, o)
    {
      assert Fits(queues[id], Slots(id)) && Fits(queues[o], Slots(o));
      var a, b := queues[id].items, queues[o].items;
      assert forall k | 0 <= k < |a| :: a[k].on == Some(id);
      assert forall k | 0 <= k < |b| :: b[k].on == Some(o);
    }

    lemma Without(items: seq<Node>, slots: seq<Slot>, k: nat)
      requires |nodes| == NUM_MAX_TASK && |items| == |slots| && k < |slots|
      requires forall m | 0 <= m < |slots| :: items[m] == nodes[slots[m]]
      ensures var a, b := items[..k] + items[k + 1..], slots[..k] + slots[k + 1..];
        |a| == |b| && forall m | 0 <= m < |b| :: a[m] == nodes[b[m]]
    {
    }

    method LinkLast(id: QueueId, i: Slot)
      requires Valid() && id in queues && nodes[i].on == None
      modifies Repr
      ensures Matches(items[id := Slots(id) + [i]])
      ensures forall j: Slot :: nodes[j].on == if j == i then Some(id) else old(nodes[j].on)
    {
      assert Fits(queues[id], Slots(id));
      forall o | o in queues && o != id
        ensures Apart(id, o)
      {
        QueuesAreApart(id, o);
      }
      queues[id].Push(nodes[i]);
      forall o | o in queues && o != id
        ensures Fits(queues[o], Slots(o))
      {
        assert old(Fits(queues[o], Slots(o))) && queues[o].items == old(queues[o].items);
        queues[o].Untouched();
      }
      assert Fits(queues[id], Slots(id) + [i]);
      Assemble(items, id, Slots(id) + [i]);
    }

    /** Appends to one queue; every other queue, and everybody's place but the new element's, is untouched. */
    method Push(id: QueueId, i: Slot)
      requires Valid() && id in queues && nodes[i].on == None
      modifies `items, Repr
      ensures Valid() && items == old(items)[id := old(Slots(id)) + [i]]
      ensures forall j: Slot :: nodes[j].on == if j == i then Some(id) else old(nodes[j].on)
    {
      LinkLast(id, i);
      items := items[id := Slots(id) + [i]];
    }

    method UnlinkFirst(id: QueueId) returns (i: Slot)
      requires Valid() && id in queues && Slots(id) != []
      modifies Repr
      ensures i == Slots(id)[0] && Matches(items[id := Slots(id)[1..]])
      ensures forall j: Slot :: nodes[j].on == if j == i then None else old(nodes[j].on)
    {
      assert Fits(queues[id], Slots(id));
      forall o | o in queues && o != id
        ensures Apart(id, o)
      {
        QueuesAreApart(id, o);
      }
      var n := queues[id].Dequeue();
      i := n.slot;
      forall o | o in queues && o != id
        ensures Fits(queues[o], Slots(o))
      {
        assert old(Fits(queues[o], Slots(o))) && queues[o].items == old(queues[o].items);
        queues[o].Untouched();
      }
      assert Fits(queues[id], Slots(id)[1..]);
      Assemble(items, id, Slots(id)[1..]);
    }

    /** Takes the first element out of a queue; every other queue and everybody else's place is untouched. */
    method Dequeue(id: QueueId) returns (i: Slot)
      requires Valid() && id in queues && Slots(id) != []
      modifies `items, Repr
      ensures Valid() && items == old(items)[id := old(Slots(id))[1..]] && i == old(Slots(id))[0]
      ensures forall j: Slot :: nodes[j].on == if j == i then None else old(nodes[j].on)
    {
      i := UnlinkFirst(id);
      items := items[id := Slots(id)[1..]];
    }

    method Unlink(id: QueueId, ghost k: nat, i: Slot) returns (next: Node?)
      requires Valid() && id in queues && k < |Slots(id)| && Slots(id)[k] == i
      modifies Repr
      ensures Matches(items[id := Slots(id)[..k] + Slots(id)[k + 1..]])
      ensures next == NodeAt(Slots(id), k + 1)
      ensures nodes[i].next == null
      ensures forall j: Slot :: nodes[j].on == if j == i then None else old(nodes[j].on)
    {
      assert Fits(queues[id], Slots(id));
      forall o | o in queues && o != id
        ensures Apart(id, o)
      {
        QueuesAreApart(id, o);
      }
      next := queues[id].Remove(nodes[i], k);
      forall o | o in queues && o != id
        ensures Fits(queues[o], Slots(o))
      {
        assert old(Fits(queues[o], Slots(o))) && queues[o].items == old(queues[o].items);
        queues[o].Untouched();
      }
      ghost var slots := Slots(id)[..k] + Slots(id)[k + 1..];
      assert Fits(queues[id], slots) by {
        Without(old(queues[id].items), Slots(id), k);
      }
      Assemble(items, id, slots);
    }

    /** Takes an element out of a queue, wherever it is, and returns the one behind it; every other queue and
        everybody else's place is untouched. */
    method Remove(id: QueueId, ghost k: nat, i: Slot) returns (next: Node?)
      requires Valid() && id in queues && k < |Slots(id)| && Slots(id)[k] == i
      modifies `items, Repr
      ensures Valid() && items == old(items)[id := old(Slots(id))[..k] + old(Slots(id))[k + 1..]]
      ensures next == NodeAt(old(Slots(id)), k + 1)
      ensures nodes[i].next == null
      ensures forall j: Slot :: nodes[j].on == if j == i then None else old(nodes[j].on)
    {
      next := Unlink(id, k, i);
      items := items[id := Slots(id)[..k] + Slots(id)[k + 1..]];
    }
  }
}
