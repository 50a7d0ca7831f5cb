/** The slots of a level of the timing wheel on the heap: heads with chains of items that point back to whatever
    points to them. Module TimerWheel keeps a slot as the sequence of its timers. */
module TimerSlots {
  import opened Lists
  import opened ListHead
  import opened TimerWheel

  /** The heads of one level, and the m_node of each timer. `slots` is what TimerWheel says of them. */
  class HeadArray {
    const heads: seq<HHead>
    const items: map<TimerEle, HItem>
    ghost var slots: seq<seq<TimerEle>>

    predicate Known(q: seq<TimerEle>) {
      forall i :: 0 <= i < |q| ==> q[i] in items
    }

    function Items(q: seq<TimerEle>): (r: seq<HItem>)
      requires Known(q)
      ensures |r| == |q| && forall i :: 0 <= i < |q| ==> r[i] == items[q[i]]
    {
      seq(|q|, i requires 0 <= i < |q| => items[q[i]])
    }

    /** No two heads and no two timers share anything. */
    ghost predicate Shape(slots: seq<seq<TimerEle>>) {
      && |heads| == |slots| && Distinct(heads)
      && (forall e, f :: e in items && f in items && items[e] == items[f] ==> e == f)
      && (forall j :: 0 <= j < |slots| ==> Known(slots[j]) && Distinct(slots[j]))
      && (forall j, k, e :: 0 <= j < |slots| && 0 <= k < |slots| && j != k && e in slots[j] ==> e !in slots[k])
    }

    ghost predicate Valid()
      reads this, heads, items.Values
    {
      Shape(slots) && forall j :: 0 <= j < |slots| ==> IsList(heads[j], Items(slots[j]))
    }

    lemma Inside(q: seq<TimerEle>)
      requires Known(q)
      ensures forall x :: x in Items(q) ==> x in items.Values
    {
    }

    /** A timer that is in no slot has its item in no list. */
    lemma NotInside(q: seq<TimerEle>, ele: TimerEle)
      requires Shape(slots) && Known(q) && ele in items && ele !in q
      ensures items[ele] !in Items(q)
    {
    }

    lemma Apart(j: nat, k: nat)
      requires Shape(slots) && j < |slots| && k < |slots| && j != k
      ensures forall x :: x in Items(slots[j]) ==> x !in Items(slots[k])
      ensures heads[j] != heads[k]
    {
      forall x | x in Items(slots[j])
        ensures x !in Items(slots[k])
      {
        var i :| 0 <= i < |slots[j]| && x == items[slots[j][i]];
        NotInside(slots[k], slots[j][i]);
      }
    }

    /** The list of another head has none of the items of slot j. */
    lemma OtherList(j: nat, k: nat, n: HItem)
      requires Valid() && j < |slots| && k < |slots| && j != k
      requires n in Items(slots[j]) || (exists e :: e in items && n == items[e] && e !in slots[k])
      ensures heads[j] != heads[k] && n !in Items(slots[k])
      ensures heads[j].first != null ==> heads[j].first !in Items(slots[k])
    {
      Apart(j, k);
      if n !in Items(slots[j]) {
        var e :| e in items && n == items[e] && e !in slots[k];
        NotInside(slots[k], e);
      }
    }

    lemma ShapeMore(slots: seq<seq<TimerEle>>, j: nat, ele: TimerEle)
      requires Shape(slots) && j < |slots| && ele in items && forall k :: 0 <= k < |slots| ==> ele !in slots[k]
      ensures Shape(slots[j := [ele] + slots[j]])
      ensures Items([ele] + slots[j]) == [items[ele]] + Items(slots[j])
    {
    }

    lemma ShapeLess(slots: seq<seq<TimerEle>>, j: nat, q: seq<TimerEle>)
      requires Shape(slots) && j < |slots| && Distinct(q) && forall e :: e in q ==> e in slots[j]
      ensures Shape(slots[j := q])
    {
      forall i | 0 <= i < |q|
        ensures q[i] in items
      {
        assert q[i] in q;
      }
    }

    /** hlist_add, which puts the timer first. */
    method Add(j: nat, ele: TimerEle)
      requires Valid() && j < |slots| && ele in items && forall k :: 0 <= k < |slots| ==> ele !in slots[k]
      modifies `slots, heads[j], items.Values
      ensures Valid() && slots == old(slots)[j := [ele] + old(slots)[j]]
    {
      ShapeMore(slots, j, ele);
      AddItem(j, ele);
      hide IsList, Shape;
      slots := slots[j := [ele] + slots[j]];
    }

    method AddItem(j: nat, ele: TimerEle)
      requires Valid() && j < |slots| && ele in items && forall k :: 0 <= k < |slots| ==> ele !in slots[k]
      modifies heads[j], items.Values
      ensures IsList(heads[j], [items[ele]] + Items(slots[j]))
      ensures forall k :: 0 <= k < |slots| && k != j ==> IsList(heads[k], Items(slots[k]))
    {
      hide Distinct, Before, NextOf;
      NotInside(slots[j], ele);
      Inside(slots[j]);
      forall k | 0 <= k < |slots| && k != j
        ensures heads[j] != heads[k] && items[ele] !in Items(slots[k])
        ensures heads[j].first != null ==> heads[j].first !in Items(slots[k])
      {
        OtherList(j, k, items[ele]);
      }
      assert heads[j].first != null ==> heads[j].first in Items(slots[j]);
      hide IsList, Shape;
      HlistAdd(items[ele], heads[j], Items(slots[j]));
    }

    lemma ShapeWithout(slots: seq<seq<TimerEle>>, j: nat, ele: TimerEle)
      requires Shape(slots) && j < |slots| && ele in slots[j]
      ensures Shape(slots[j := Without(slots[j], ele)]) && Known(Without(slots[j], ele)) && ele in items
      ensures var q, k := Items(slots[j]), Index(slots[j], ele);
        k < |q| && q[k] == items[ele] && Items(Without(slots[j], ele)) == q[..k] + q[k + 1..]
    {
      var q := slots[j];
      IndexIn(q, ele);
      WithoutUnique(q, ele);
      forall e
        ensures e in Without(q, ele) ==> e in q
      {
        WithoutHas(q, ele, e);
      }
      ShapeLess(slots, j, Without(q, ele));
      assert slots[j := Without(q, ele)][j] == Without(q, ele);
    }

    /** hlist_del, from the item's own pointers alone, whatever slot the timer is in. */
    method Del(ele: TimerEle, ghost j: nat)
      requires Valid() && j < |slots| && ele in slots[j]
      modifies `slots, heads[j], items.Values
      ensures Valid() && slots == old(slots)[j := Without(old(slots)[j], ele)]
    {
      ShapeWithout(slots, j, ele);
      DelItem(ele, j, Items(slots[j]), Index(slots[j], ele));
      hide IsList, Shape, Without, Index;
      slots := slots[j := Without(slots[j], ele)];
    }

    method DelItem(ele: TimerEle, ghost j: nat, ghost q: seq<HItem>, ghost k: nat)
      requires Valid() && j < |slots| && q == Items(slots[j]) && k < |q| && ele in items && q[k] == items[ele]
      modifies heads[j], items.Values
      ensures IsList(heads[j], q[..k] + q[k + 1..])
      ensures forall i :: 0 <= i < |slots| && i != j ==> IsList(heads[i], Items(slots[i]))
    {
      hide Distinct, Before, NextOf;
      Inside(slots[j]);
      forall i | 0 <= i < |slots| && i != j
        ensures heads[j] != heads[i] && forall x :: x in Items(slots[i]) ==> x !in q
      {
        Apart(j, i);
      }
      hide Shape;
      HlistDel(items[ele], heads[j], q, k);
      forall i | 0 <= i < |slots| && i != j
        ensures IsList(heads[i], Items(slots[i]))
      {
        assert old(IsList(heads[i], Items(slots[i])));
        assert heads[i].first == old(heads[i].first);
        assert forall x :: x in Items(slots[i]) ==> x.next == old(x.next);
        assert forall x :: x in Items(slots[i]) ==> x.pprev == old(x.pprev);
      }
    }

    /** hlist_replace: the timers of a slot go to a list of their own. */
    method Replace(j: nat, to: HHead) returns (ghost list: seq<TimerEle>)
      requires Valid() && j < |slots| && to !in heads && to.first == null
      modifies `slots, heads[j], to, items.Values
      ensures Valid() && slots == old(slots)[j := []]
      ensures list == old(slots)[j] && Known(list) && IsList(to, Items(list))
    {
      list := slots[j];
      ShapeLess(slots, j, []);
      Inside(list);
      forall i | 0 <= i < |slots| && i != j
        ensures heads[j] != heads[i] && forall x :: x in Items(list) ==> x !in Items(slots[i])
      {
        Apart(j, i);
      }
      assert heads[j].first != null ==> heads[j].first in Items(list);
      assert forall i :: 0 <= i < |slots| ==> heads[i] != to;
      hide IsList, Shape;
      HlistReplace(heads[j], to, Items(list));
      slots := slots[j := []];
      assert Items([]) == [];
    }
  }

  /** Taking out a timer is cutting it out where it is. */
  lemma {:induction false} IndexIn(q: seq<TimerEle>, ele: TimerEle)
    requires ele in q
    ensures Index(q, ele) < |q| && q[Index(q, ele)] == ele
    ensures Without(q, ele) == q[..Index(q, ele)] + q[Index(q, ele) + 1..]
  {
    if q[0] != ele {
      IndexIn(q[1..], ele);
      assert q == [q[0]] + q[1..];
    }
  }
}
