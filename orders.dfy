/**
 * Orders as the exchange library returns them, and the in-place stamping of
 * the originating exchange's name that every loader applies to its lists.
 */
module Orders {
  import opened Builtins

  /**
   * An order. The aggregator reads `symbol` and `status` and writes
   * `exchange`; `id` and `datetime` stand for the fields it passes through
   * untouched. `exchange` is None until a loader stamps it.
   */
  datatype Order = Order(id: string, symbol: string, status: string, datetime: int, exchange: Option<string>)

  /** The `{openOrders, closedOrders}` pair a loader returns and the route responds with. */
  datatype OrderLists = OrderLists(openOrders: seq<Order>, closedOrders: seq<Order>)

  /** The order with its `exchange` field set to `name` and nothing else changed. */
  function Stamped(o: Order, name: string): (r: Order)
    ensures r.exchange == Some(name)
    ensures r.id == o.id && r.symbol == o.symbol && r.status == o.status && r.datetime == o.datetime
  {
    o.(exchange := Some(name))
  }

  /** The list after `forEach(order => order.exchange = name)`. */
  function Tagged(s: seq<Order>, name: string): (r: seq<Order>)
    ensures |r| == |s|
    ensures forall o :: o in r ==> o.exchange == Some(name)
  {
    if s == [] then [] else [Stamped(s[0], name)] + Tagged(s[1..], name)
  }

  /** Tagging changes the `exchange` field of each order and no other field. */
  lemma {:induction false} TaggedAt(s: seq<Order>, name: string, k: nat)
    requires k < |s|
    ensures Tagged(s, name)[k] == s[k].(exchange := Some(name))
  {
    if k > 0 {
      TaggedAt(s[1..], name, k - 1);
    }
  }

  /** The one-for-one correspondence between a list and its tagged copy. */
  lemma TaggedElements(s: seq<Order>, name: string)
    ensures forall k :: 0 <= k < |s| ==> Tagged(s, name)[k] == s[k].(exchange := Some(name))
  {
    forall k | 0 <= k < |s| ensures Tagged(s, name)[k] == s[k].(exchange := Some(name)) {
      TaggedAt(s, name, k);
    }
  }

  /** Every order of a tagged list is the tagged copy of an order of the original list. */
  lemma TaggedSource(s: seq<Order>, name: string, o: Order)
    requires o in Tagged(s, name)
    ensures exists x :: x in s && o == x.(exchange := Some(name))
  {
    TaggedElements(s, name);
    var k :| 0 <= k < |Tagged(s, name)| && Tagged(s, name)[k] == o;
    assert s[k] in s;
  }

  /** Stamps `name` on every order of `a`, in place. */
  method StampExchange(a: array<Order>, name: string)
    modifies a
    ensures a[..] == Tagged(old(a[..]), name)
  {
    var i := 0;
    while i < a.Length
      invariant 0 <= i <= a.Length
      invariant forall k :: 0 <= k < i ==> a[k] == Stamped(old(a[k]), name)
      invariant forall k :: i <= k < a.Length ==> a[k] == old(a[k])
    {
      a[i] := Stamped(a[i], name);
      i := i + 1;
    }
    TaggedElements(old(a[..]), name);
  }

  /** A fresh array holding the orders of `s`, tagged in place with `name`. */
  method TagCopy(s: seq<Order>, name: string) returns (r: seq<Order>)
    ensures r == Tagged(s, name)
  {
    var a := new Order[|s|](i requires 0 <= i < |s| => s[i]);
    assert a[..] == s;
    StampExchange(a, name);
    r := a[..];
  }
}
