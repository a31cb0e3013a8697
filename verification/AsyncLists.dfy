/** Every step keeps the two kinds of work list consistent with where each transaction is. */
module AsyncLists {
  import opened Base
  import opened BinderTypes
  import opened AsyncSystem
  import opened AsyncInvariant

  lemma ListMove(nodes: seq<Node>, place: Places, t: TxnId, p: Place)
    requires ListInv(nodes, place) && (t in place ==> !place[t].Waiting?) && !p.Waiting?
    ensures ListInv(nodes, place[t := p])
  {
  }

  lemma ListAppend(nodes: seq<Node>, place: Places, n: nat, t: TxnId, node: Node)
    requires ListInv(nodes, place) && n < |nodes| && t in place && !place[t].Waiting?
    requires node.asyncTodo == nodes[n].asyncTodo + [TxnWork(t)]
    ensures ListInv(nodes[n := node], place[t := Waiting(n)])
  {
    assert node.asyncTodo[|nodes[n].asyncTodo|] == TxnWork(t);
    forall x | x in place && place[x].Waiting? ensures TxnWork(x) in nodes[n := node][place[x].n].asyncTodo {
      assert TxnWork(x) in nodes[place[x].n].asyncTodo;
    }
  }

  lemma ListAppendOther(nodes: seq<Node>, place: Places, n: nat, kind: nat, node: Node)
    requires ListInv(nodes, place) && n < |nodes|
    requires node.asyncTodo == nodes[n].asyncTodo + [OtherWork(kind)]
    ensures ListInv(nodes[n := node], place)
  {
    forall x | x in place && place[x].Waiting? ensures TxnWork(x) in nodes[n := node][place[x].n].asyncTodo {
      assert TxnWork(x) in nodes[place[x].n].asyncTodo;
    }
  }

  lemma StillIn<T>(s: seq<T>, i: nat, x: T)
    requires i < |s| && x in s && x != s[i]
    ensures x in Without(s, i)
  {
    var j :| 0 <= j < |s| && s[j] == x;
    assert Without(s, i)[if j < i then j else j - 1] == x;
  }

  lemma ListRemove(nodes: seq<Node>, place: Places, n: nat, i: nat, node: Node, p: Place)
    requires ListInv(nodes, place) && n < |nodes| && i < |nodes[n].asyncTodo| && !p.Waiting?
    requires node.asyncTodo == Without(nodes[n].asyncTodo, i)
    ensures nodes[n].asyncTodo[i].TxnWork? ==> ListInv(nodes[n := node], place[nodes[n].asyncTodo[i].t := p])
    ensures nodes[n].asyncTodo[i].OtherWork? ==> ListInv(nodes[n := node], place)
  {
    var w := nodes[n].asyncTodo[i];
    forall x | x in place && place[x].Waiting? && w != TxnWork(x)
      ensures TxnWork(x) in nodes[n := node][place[x].n].asyncTodo
    {
      assert TxnWork(x) in nodes[place[x].n].asyncTodo;
      if place[x].n == n { StillIn(nodes[n].asyncTodo, i, TxnWork(x)); }
    }
  }

  lemma TodoMove(todo: seq<TxnId>, place: Places, t: TxnId, p: Place)
    requires TodoInv(todo, place) && (t in place ==> place[t] != Handed) && p != Handed
    ensures TodoInv(todo, place[t := p])
  {
  }

  lemma TodoAppend(todo: seq<TxnId>, place: Places, t: TxnId)
    requires TodoInv(todo, place) && t in place && place[t] != Handed
    ensures TodoInv(todo + [t], place[t := Handed])
  {
    assert (todo + [t])[|todo|] == t;
  }

  lemma TodoRemove(todo: seq<TxnId>, place: Places, i: nat, p: Place)
    requires TodoInv(todo, place) && i < |todo| && p != Handed
    ensures TodoInv(Without(todo, i), place[todo[i] := p])
  {
    forall x | x in place && place[x] == Handed && x != todo[i] ensures x in Without(todo, i) {
      StillIn(todo, i, x);
    }
  }

  lemma ListSame(nodes: seq<Node>, place: Places, n: nat, node: Node)
    requires ListInv(nodes, place) && n < |nodes| && node.asyncTodo == nodes[n].asyncTodo
    ensures ListInv(nodes[n := node], place)
  {
    forall x | x in place && place[x].Waiting? ensures TxnWork(x) in nodes[n := node][place[x].n].asyncTodo {
      assert TxnWork(x) in nodes[place[x].n].asyncTodo;
    }
  }
}
