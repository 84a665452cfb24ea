/** The intrusive circular list of beeper_util.c: every list has a sentinel, and an empty list is a
    sentinel that points at itself. `nodes` is the list read from top to bottom. */
module LinkedList {
  import opened Basics

  class Node<T(0)> {
    var up: Node?<T>
    var down: Node?<T>
    var data: T

    constructor (d: T)
      ensures up == null && down == null && data == d
    {
      up, down, data := null, null, d;
    }

    constructor Sentinel()
      ensures up == this && down == this
    {
      up, down := this, this;
    }
  }

  /** Neighbours in `c` are linked both ways. */
  ghost predicate Linked<T(0)>(c: seq<Node<T>>)
    reads c`up, c`down
  {
    && (forall i {:trigger c[i].down} :: 0 <= i < |c| - 1 ==> c[i].down == c[i + 1])
    && (forall i {:trigger c[i].up} :: 0 < i < |c| ==> c[i].up == c[i - 1])
  }

  class Ring<T(0)> {
    const head: Node<T>
    ghost var nodes: seq<Node<T>>

    /** The way round: sentinel, top to bottom, sentinel again. */
    ghost function Circle(): (c: seq<Node<T>>)
      reads this`nodes
    {
      [head] + nodes + [head]
    }

    ghost predicate Valid()
      reads this`nodes, head`up, head`down, nodes`up, nodes`down
    {
      head !in nodes && Distinct(nodes) && Linked(Circle())
    }

    constructor ()
      ensures Valid() && nodes == [] && fresh(head)
    {
      head := new Node<T>.Sentinel();
      nodes := [];
    }

    method IsEmpty() returns (empty: bool)
      requires Valid()
      ensures empty <==> nodes == []
    {
      ghost var c := Circle();
      assert c[|c| - 1].up == c[|c| - 2];
      empty := head.up == head;
    }

    method Top() returns (link: Node?<T>)
      requires Valid()
      ensures link == if nodes == [] then null else nodes[0]
    {
      assert Circle()[0].down == Circle()[1];
      link := head.down;
      if link == head {
        link := null;
      }
    }

    method Bottom() returns (link: Node?<T>)
      requires Valid()
      ensures link == if nodes == [] then null else nodes[|nodes| - 1]
    {
      ghost var c := Circle();
      assert c[|c| - 1].up == c[|c| - 2];
      link := head.up;
      if link == head {
        link := null;
      }
    }

    /** The neighbour above; above "no link" is the bottom of the list. `i` is where `link` is. */
    method LinkUp(link: Node?<T>, ghost i: nat) returns (r: Node?<T>)
      requires Valid()
      requires i <= |nodes| && link == if i < |nodes| then nodes[i] else null
      ensures r == if 0 < i then nodes[i - 1] else null
    {
      assert Circle()[i + 1].up == Circle()[i];
      var from := if link == null then head else link;
      r := from.up;
      if r == head {
        r := null;
      }
    }

    /** The neighbour below; below "no link" is the top of the list. `i` is how many are above the answer. */
    method LinkDown(link: Node?<T>, ghost i: nat) returns (r: Node?<T>)
      requires Valid()
      requires i <= |nodes| && link == if 0 < i then nodes[i - 1] else null
      ensures r == if i < |nodes| then nodes[i] else null
    {
      assert Circle()[i].down == Circle()[i + 1];
      var from := if link == null then head else link;
      r := from.down;
      if r == head {
        r := null;
      }
    }

    /** Writing the four pointers around `link` puts it between the `i`-th pair of the circle. */
    twostate lemma Spliced(new link: Node<T>, i: nat)
      requires old(Valid())
      requires link != head && link !in old(nodes) && i <= |old(nodes)|
      requires nodes == old(nodes[..i] + [link] + nodes[i..])
      requires link.up == old(Circle())[i] && link.up.down == link
      requires link.down == old(Circle())[i + 1] && link.down.up == link
      requires forall n :: n in old(Circle()) && n != link.up ==> n.down == old(n.down)
      requires forall n :: n in old(Circle()) && n != link.down ==> n.up == old(n.up)
      ensures Valid()
    {
      var c, d := old(Circle()), Circle();
      assert d == c[..i + 1] + [link] + c[i + 1..];
      forall k | 0 <= k < |d| - 1
        ensures d[k].down == d[k + 1]
      {
        if k < i {
          assert c[k].down == old(c[k].down) == c[k + 1];
        } else if k > i + 1 {
          assert c[k - 1].down == old(c[k - 1].down) == c[k];
        }
      }
      forall k | 0 < k < |d|
        ensures d[k].up == d[k - 1]
      {
        if k < i + 1 {
          assert c[k].up == old(c[k].up) == c[k - 1];
        } else if k > i + 2 {
          assert c[k - 1].up == old(c[k - 1].up) == c[k - 2];
        }
      }
    }

    method AddTop(link: Node<T>)
      requires Valid() && link != head && link !in nodes
      modifies this`nodes, head`up, head`down, nodes`up, nodes`down, link`up, link`down
      ensures Valid() && nodes == [link] + old(nodes)
    {
      assert Circle()[0].down == Circle()[1];
      var oldTop := head.down;
      head.down := link;
      link.down := oldTop;
      link.up := head;
      oldTop.up := link;
      nodes := [link] + nodes;
      assert old(nodes) == old(nodes)[0..];
      Spliced(link, 0);
    }

    method AddBottom(link: Node<T>)
      requires Valid() && link != head && link !in nodes
      modifies this`nodes, head`up, head`down, nodes`up, nodes`down, link`up, link`down
      ensures Valid() && nodes == old(nodes) + [link]
    {
      ghost var c := Circle();
      ghost var i := |nodes|;
      assert c[i + 1].up == c[i];
      var oldBottom := head.up;
      head.up := link;
      link.up := oldBottom;
      link.down := head;
      oldBottom.down := link;
      nodes := nodes + [link];
      assert nodes == old(nodes)[..i] + [link] + old(nodes)[i..];
      Spliced(link, i);
    }

    method Remove(link: Node<T>, ghost i: nat)
      requires Valid() && i < |nodes| && link == nodes[i]
      modifies this`nodes, head`up, head`down, nodes`up, nodes`down
      ensures Valid() && nodes == old(nodes[..i] + nodes[i + 1..])
      ensures link.up == null && link.down == null
    {
      ghost var c := Circle();
      assert c[i + 1].up == c[i] && c[i + 1].down == c[i + 2];
      link.up.down := link.down;
      link.down.up := link.up;
      link.up := null;
      link.down := null;
      nodes := nodes[..i] + nodes[i + 1..];
      Unspliced(link, i);
    }

    /** Joining the two neighbours of `link` takes it out of the circle. */
    twostate lemma Unspliced(new link: Node<T>, i: nat)
      requires old(Valid())
      requires i < |old(nodes)| && link == old(nodes)[i]
      requires nodes == old(nodes[..i] + nodes[i + 1..])
      requires old(Circle())[i].down == old(Circle())[i + 2]
      requires old(Circle())[i + 2].up == old(Circle())[i]
      requires forall n :: n in old(Circle()) && n != old(Circle())[i] && n != link ==> n.down == old(n.down)
      requires forall n :: n in old(Circle()) && n != old(Circle())[i + 2] && n != link ==> n.up == old(n.up)
      ensures Valid()
    {
      var c, d := old(Circle()), Circle();
      assert d == c[..i + 1] + c[i + 2..];
      forall k | 0 <= k < |d| - 1
        ensures d[k].down == d[k + 1]
      {
        if k < i {
          assert c[k].down == old(c[k].down) == c[k + 1];
        } else if k > i {
          assert c[k + 1].down == old(c[k + 1].down) == c[k + 2];
        }
      }
      forall k | 0 < k < |d|
        ensures d[k].up == d[k - 1]
      {
        if k <= i {
          assert c[k].up == old(c[k].up) == c[k - 1];
        } else if k > i + 1 {
          assert c[k + 1].up == old(c[k + 1].up) == c[k];
        }
      }
    }

    /** Inserts `link` above `below`, or at the bottom when there is no `below`. */
    method InsertAbove(link: Node<T>, below: Node?<T>, ghost i: nat)
      requires Valid() && link != head && link !in nodes
      requires i <= |nodes| && below == if i < |nodes| then nodes[i] else null
      modifies this`nodes, head`up, head`down, nodes`up, nodes`down, link`up, link`down
      ensures Valid() && nodes == old(nodes[..i] + [link] + nodes[i..])
    {
      if below == null {
        AddBottom(link);
        assert old(nodes) + [link] == old(nodes[..i] + [link] + nodes[i..]);
        return;
      }
      ghost var c := Circle();
      assert c[i + 1].up == c[i];
      var above := below.up;
      above.down := link;
      below.up := link;
      link.up := above;
      link.down := below;
      nodes := nodes[..i] + [link] + nodes[i..];
      Spliced(link, i);
    }

    /** Inserts `link` below `above`, or at the top when there is no `above`. */
    method InsertBelow(link: Node<T>, above: Node?<T>, ghost i: nat)
      requires Valid() && link != head && link !in nodes
      requires i <= |nodes| && above == if 0 < i then nodes[i - 1] else null
      modifies this`nodes, head`up, head`down, nodes`up, nodes`down, link`up, link`down
      ensures Valid() && nodes == old(nodes[..i] + [link] + nodes[i..])
    {
      if above == null {
        AddTop(link);
        assert [link] + old(nodes) == old(nodes[..i] + [link] + nodes[i..]);
        return;
      }
      ghost var c := Circle();
      assert c[i].down == c[i + 1];
      var below := above.down;
      above.down := link;
      below.up := link;
      link.up := above;
      link.down := below;
      nodes := nodes[..i] + [link] + nodes[i..];
      Spliced(link, i);
    }
  }
}
