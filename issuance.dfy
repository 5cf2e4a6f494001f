/**
 * The ticket expansion shared by every issuer in the source: for each group (order item or ticket group)
 * in order, and for i from 0 while i < quantity, push one ticket.
 */
module Issuance {
  import opened Entities

  /** A ticket type and how many tickets of it to issue. */
  datatype Group = Group(ticketTypeId: string, quantity: int)

  /** The i-th ticket of a group. */
  datatype Unit = Unit(ticketTypeId: string, index: nat)

  /** How many times a loop `for (let i = 0; i < q; i++)` runs. */
  function Count(q: int): (n: nat)
    ensures q > 0 ==> n == q
    ensures q <= 0 ==> n == 0
  {
    if q > 0 then q else 0
  }

  function GroupUnits(g: Group): (r: seq<Unit>)
    ensures |r| == Count(g.quantity)
    ensures forall i :: 0 <= i < |r| ==> r[i] == Unit(g.ticketTypeId, i)
  {
    seq(Count(g.quantity), i requires 0 <= i => Unit(g.ticketTypeId, i))
  }

  /** The units of all groups, group after group. */
  function UnitsOf(groups: seq<Group>): seq<Unit>
  {
    if groups == [] then [] else UnitsOf(groups[..|groups| - 1]) + GroupUnits(groups[|groups| - 1])
  }

  /** The sum of the loop counts of all groups. */
  function TotalUnits(groups: seq<Group>): nat
  {
    if groups == [] then 0 else TotalUnits(groups[..|groups| - 1]) + Count(groups[|groups| - 1].quantity)
  }

  lemma {:induction false} UnitsOfLength(groups: seq<Group>)
    ensures |UnitsOf(groups)| == TotalUnits(groups)
    decreases |groups|
  {
    if groups != [] {
      UnitsOfLength(groups[..|groups| - 1]);
    }
  }

  /** Every unit belongs to one of the groups, with an index below that group's count. */
  lemma {:induction false} UnitsComeFromGroups(groups: seq<Group>, k: nat)
    requires k < |UnitsOf(groups)|
    ensures exists j :: 0 <= j < |groups| && UnitsOf(groups)[k].ticketTypeId == groups[j].ticketTypeId
                                          && UnitsOf(groups)[k].index < Count(groups[j].quantity)
    decreases |groups|
  {
    var front := groups[..|groups| - 1];
    var g := groups[|groups| - 1];
    if k < |UnitsOf(front)| {
      UnitsComeFromGroups(front, k);
      var j :| 0 <= j < |front| && UnitsOf(front)[k].ticketTypeId == front[j].ticketTypeId
                                && UnitsOf(front)[k].index < Count(front[j].quantity);
      assert groups[j] == front[j];
    } else {
      var i := k - |UnitsOf(front)|;
      assert UnitsOf(groups)[k] == GroupUnits(g)[i];
      assert groups[|groups| - 1] == g;
    }
  }

  /** One group per order item, with the item's ticket type and quantity. */
  function ItemGroups(items: seq<OrderItem>): (r: seq<Group>)
    ensures |r| == |items|
    ensures forall i :: 0 <= i < |items| ==> r[i].ticketTypeId == items[i].ticketTypeId && r[i].quantity == items[i].quantity
  {
    seq(|items|, i requires 0 <= i < |items| => Group(items[i].ticketTypeId, items[i].quantity))
  }

  /** The tickets an issuer builds: the k-th unit becomes `mk(unit, k)`. */
  function Expanded(groups: seq<Group>, mk: (Unit, nat) -> Ticket): (r: seq<Ticket>)
    ensures |r| == TotalUnits(groups) == |UnitsOf(groups)|
    ensures forall k :: 0 <= k < |r| ==> r[k] == mk(UnitsOf(groups)[k], k)
  {
    UnitsOfLength(groups);
    var us := UnitsOf(groups);
    seq(|us|, k requires 0 <= k < |us| => mk(us[k], k))
  }

  /** The nested push loops themselves. */
  method Expand(groups: seq<Group>, mk: (Unit, nat) -> Ticket) returns (tickets: seq<Ticket>)
    ensures tickets == Expanded(groups, mk)
  {
    tickets := [];
    for a := 0 to |groups|
      invariant tickets == Expanded(groups[..a], mk)
    {
      var g := groups[a];
      ghost var before := UnitsOf(groups[..a]);
      assert groups[..a + 1][..a] == groups[..a];
      assert UnitsOf(groups[..a + 1]) == before + GroupUnits(g);
      var i := 0;
      while i < g.quantity
        invariant 0 <= i <= Count(g.quantity)
        invariant |tickets| == |before| + i
        invariant forall k :: 0 <= k < |tickets| ==> tickets[k] == mk((before + GroupUnits(g))[k], k)
      {
        tickets := tickets + [mk(Unit(g.ticketTypeId, i), |tickets|)];
        i := i + 1;
      }
      assert |tickets| == |Expanded(groups[..a + 1], mk)|;
    }
    assert groups[..|groups|] == groups;
  }
}
