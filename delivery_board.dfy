// The driver's delivery board of deliveries/views.py (`delivery_list`,
// lines 25-45): from the deliveries ordered newest first, keep the first one
// seen for each customer, then put each kept delivery into the bucket named
// by its lower-cased status, for the three statuses the board shows; a kept
// delivery with any other status is dropped.
//
// The ordering itself is the database's `order_by('-date')`: the method takes
// the already ordered rows, and the lemmas that speak of "latest" assume the
// order. Lower-casing is ASCII only.

module DeliveryBoard {

  datatype Delivery = Delivery(id: nat, customer: nat, date: int, status: string)

  const Delivered := "delivered"
  const Transporting := "transporting"
  const PickedUp := "picked_up"

  function LowerChar(c: char): char {
    if 'A' <= c <= 'Z' then (c as int + 32) as char else c
  }

  /** `str.lower()` on ASCII text. */
  function Lower(s: string): (r: string)
    ensures |r| == |s|
    ensures forall i :: 0 <= i < |s| ==> r[i] == LowerChar(s[i])
  {
    if s == [] then [] else [LowerChar(s[0])] + Lower(s[1..])
  }

  /** The customers that occur in ds. */
  function Customers(ds: seq<Delivery>): set<nat> {
    if ds == [] then {} else Customers(ds[..|ds| - 1]) + {ds[|ds| - 1].customer}
  }

  /** The values of `latest_by_customer` in insertion order: each delivery
      whose customer has not been seen before, in the order of ds. */
  function Kept(ds: seq<Delivery>): (r: seq<Delivery>)
    ensures |r| <= |ds|
  {
    if ds == [] then []
    else
      var prefix := Kept(ds[..|ds| - 1]);
      var d := ds[|ds| - 1];
      if d.customer in Customers(prefix) then prefix else prefix + [d]
  }

  /** The kept deliveries whose lower-cased status is s, in order. */
  function Bucket(ks: seq<Delivery>, s: string): (r: seq<Delivery>)
    ensures |r| <= |ks|
  {
    if ks == [] then []
    else
      var rest := Bucket(ks[..|ks| - 1], s);
      var d := ks[|ks| - 1];
      if Lower(d.status) == s then rest + [d] else rest
  }

  /** The template context: exactly the three buckets. */
  function Board(ks: seq<Delivery>): (r: map<string, seq<Delivery>>)
    ensures r.Keys == {Delivered, Transporting, PickedUp}
  {
    map[Delivered := Bucket(ks, Delivered), Transporting := Bucket(ks, Transporting), PickedUp := Bucket(ks, PickedUp)]
  }

  /** The first loop of `delivery_list` (deliveries/views.py:29-32): the dict
      `latest_by_customer`, as a map plus the order its keys were inserted in. */
  method LatestByCustomer(ds: seq<Delivery>) returns (latest: map<nat, Delivery>, keys: seq<nat>)
    ensures |keys| == |Kept(ds)|
    ensures forall j :: 0 <= j < |keys| ==> keys[j] == Kept(ds)[j].customer
    ensures latest.Keys == Customers(Kept(ds))
    ensures forall j :: 0 <= j < |keys| ==> keys[j] in latest && latest[keys[j]] == Kept(ds)[j]
  {
    latest, keys := map[], [];
    ghost var kept: seq<Delivery> := [];
    var i := 0;
    while i < |ds|
      invariant 0 <= i <= |ds|
      invariant kept == Kept(ds[..i])
      invariant latest.Keys == Customers(kept)
      invariant |keys| == |kept|
      invariant forall j :: 0 <= j < |kept| ==> keys[j] == kept[j].customer && keys[j] in latest && latest[keys[j]] == kept[j]
    {
      var d := ds[i];
      KeptStep(ds, i);
      if d.customer !in latest {
        CustomersAppend(kept, d);
        latest := latest[d.customer := d];
        keys := keys + [d.customer];
        kept := kept + [d];
      }
      i := i + 1;
    }
    assert ds[..i] == ds;
  }

  /** `delivery_list` (deliveries/views.py:25-45) on the rows ds, already
      ordered newest first. */
  method DeliveryList(ds: seq<Delivery>) returns (grouped: map<string, seq<Delivery>>)
    ensures grouped.Keys == {Delivered, Transporting, PickedUp}
    ensures grouped == Board(Kept(ds))
  {
    var latest, keys := LatestByCustomer(ds);
    ghost var kept := Kept(ds);
    grouped := map[Delivered := [], Transporting := [], PickedUp := []];
    var k := 0;
    while k < |keys|
      invariant 0 <= k <= |keys|
      invariant grouped == Board(kept[..k])
    {
      BoardStep(kept, k);
      var d := latest[keys[k]];
      var status := Lower(d.status);
      if status in grouped {
        grouped := grouped[status := grouped[status] + [d]];
      }
      k := k + 1;
    }
    assert kept[..k] == kept;
  }

  // ================================================================ lemmas

  /** One more delivery is kept exactly when its customer is new. */
  lemma KeptStep(ds: seq<Delivery>, i: int)
    requires 0 <= i < |ds|
    ensures Kept(ds[..i + 1]) == if ds[i].customer in Customers(Kept(ds[..i])) then Kept(ds[..i]) else Kept(ds[..i]) + [ds[i]]
  {
    assert ds[..i + 1][..i] == ds[..i];
  }

  lemma CustomersAppend(ks: seq<Delivery>, d: Delivery)
    ensures Customers(ks + [d]) == Customers(ks) + {d.customer}
  {
    assert (ks + [d])[..|ks|] == ks;
  }

  /** One more kept delivery lands at the end of its bucket, if it has one. */
  lemma BoardStep(ks: seq<Delivery>, k: int)
    requires 0 <= k < |ks|
    ensures var d, b := ks[k], Board(ks[..k]);
      Board(ks[..k + 1]) == if Lower(d.status) in b then b[Lower(d.status) := b[Lower(d.status)] + [d]] else b
  {
    assert ks[..k + 1][..k] == ks[..k];
  }

  /** No delivery before position i has the customer of ds[i]. */
  predicate FirstOfCustomer(ds: seq<Delivery>, i: int)
    requires 0 <= i < |ds|
  {
    forall j :: 0 <= j < i ==> ds[j].customer != ds[i].customer
  }

  lemma {:induction false} CustomersMembership(ds: seq<Delivery>, c: nat)
    ensures c in Customers(ds) <==> exists i :: 0 <= i < |ds| && ds[i].customer == c
    decreases |ds|
  {
    if ds != [] {
      var p := ds[..|ds| - 1];
      CustomersMembership(p, c);
      if exists i :: 0 <= i < |p| && p[i].customer == c {
        var i :| 0 <= i < |p| && p[i].customer == c;
        assert ds[i].customer == c;
      }
      if exists i :: 0 <= i < |ds| && ds[i].customer == c {
        var i :| 0 <= i < |ds| && ds[i].customer == c;
        if i < |p| {
          assert p[i].customer == c;
        }
      }
    }
  }

  /** Each customer contributes at most one delivery. */
  lemma {:induction false} KeptDistinct(ds: seq<Delivery>)
    ensures forall i, j :: 0 <= i < j < |Kept(ds)| ==> Kept(ds)[i].customer != Kept(ds)[j].customer
    decreases |ds|
  {
    if ds != [] {
      var p := Kept(ds[..|ds| - 1]);
      KeptDistinct(ds[..|ds| - 1]);
      var d := ds[|ds| - 1];
      if d.customer !in Customers(p) {
        forall i | 0 <= i < |p| ensures p[i].customer != d.customer {
          CustomersMembership(p, d.customer);
        }
      }
    }
  }

  /** Every customer of ds has a kept delivery, and no other customer does. */
  lemma {:induction false} KeptCustomers(ds: seq<Delivery>)
    ensures Customers(Kept(ds)) == Customers(ds)
    decreases |ds|
  {
    if ds != [] {
      var p := Kept(ds[..|ds| - 1]);
      KeptCustomers(ds[..|ds| - 1]);
      var d := ds[|ds| - 1];
      if d.customer !in Customers(p) {
        assert (p + [d])[..|p + [d]| - 1] == p;
      }
    }
  }

  /** Every kept delivery occurs in ds; no earlier delivery in ds has its
      customer, so it is the first one of its customer. */
  lemma {:induction false} KeptIsFirst(ds: seq<Delivery>, k: int)
    requires 0 <= k < |Kept(ds)|
    ensures exists i :: 0 <= i < |ds| && ds[i] == Kept(ds)[k] && FirstOfCustomer(ds, i)
    decreases |ds|
  {
    var p := ds[..|ds| - 1];
    var x := Kept(ds)[k];
    if k < |Kept(p)| {
      assert Kept(ds)[k] == Kept(p)[k];
      KeptIsFirst(p, k);
      var i :| 0 <= i < |p| && p[i] == x && FirstOfCustomer(p, i);
      assert ds[i] == x;
      forall j | 0 <= j < i ensures ds[j].customer != ds[i].customer {
        assert ds[j] == p[j];
      }
    } else {
      var i := |ds| - 1;
      assert x == ds[i] && ds[i].customer !in Customers(Kept(p));
      KeptCustomers(p);
      CustomersMembership(p, ds[i].customer);
      forall j | 0 <= j < i ensures ds[j].customer != ds[i].customer {
        assert ds[j] == p[j];
      }
    }
  }

  /** Conversely, the first delivery of each customer is kept. */
  lemma FirstIsKept(ds: seq<Delivery>, i: int)
    requires 0 <= i < |ds|
    requires FirstOfCustomer(ds, i)
    ensures ds[i] in Kept(ds)
  {
    KeptCustomers(ds);
    CustomersMembership(ds, ds[i].customer);
    CustomersMembership(Kept(ds), ds[i].customer);
    var k :| 0 <= k < |Kept(ds)| && Kept(ds)[k].customer == ds[i].customer;
    KeptIsFirst(ds, k);
    var i' :| 0 <= i' < |ds| && ds[i'] == Kept(ds)[k] && FirstOfCustomer(ds, i');
    assert i' == i;
  }

  /** With ds ordered newest first, the kept delivery of a customer is no
      older than any of that customer's deliveries. */
  lemma KeptIsLatest(ds: seq<Delivery>, k: int, j: int)
    requires forall a, b :: 0 <= a < b < |ds| ==> ds[a].date >= ds[b].date
    requires 0 <= k < |Kept(ds)| && 0 <= j < |ds| && ds[j].customer == Kept(ds)[k].customer
    ensures ds[j].date <= Kept(ds)[k].date
  {
    KeptIsFirst(ds, k);
    var i :| 0 <= i < |ds| && ds[i] == Kept(ds)[k] && FirstOfCustomer(ds, i);
    assert i <= j;
  }

  /** There are exactly as many kept deliveries as distinct customers. */
  lemma {:induction false} KeptCount(ds: seq<Delivery>)
    ensures |Kept(ds)| == |Customers(ds)|
    decreases |ds|
  {
    if ds != [] {
      var p := ds[..|ds| - 1];
      var d := ds[|ds| - 1];
      KeptCount(p);
      KeptCustomers(p);
      assert Customers(ds) == Customers(p) + {d.customer};
      if d.customer in Customers(p) {
        assert Kept(ds) == Kept(p);
        assert Customers(ds) == Customers(p);
      } else {
        assert Kept(ds) == Kept(p) + [d];
        assert |Customers(p) + {d.customer}| == |Customers(p)| + 1;
      }
    }
  }

  /** A delivery is in bucket s iff it is kept and its lower-cased status is s. */
  lemma {:induction false} BucketMembership(ks: seq<Delivery>, s: string, x: Delivery)
    ensures x in Bucket(ks, s) <==> x in ks && Lower(x.status) == s
    decreases |ks|
  {
    if ks != [] {
      var p := ks[..|ks| - 1];
      BucketMembership(p, s, x);
      assert ks == p + [ks[|ks| - 1]];
    }
  }

  /** Buckets keep the order of the kept list: bucketing distributes over
      concatenation. */
  lemma {:induction false} BucketAppend(a: seq<Delivery>, b: seq<Delivery>, s: string)
    ensures Bucket(a + b, s) == Bucket(a, s) + Bucket(b, s)
    decreases |b|
  {
    if b == [] {
      assert a + b == a;
    } else {
      var b' := b[..|b| - 1];
      assert (a + b)[..|a + b| - 1] == a + b';
      assert (a + b)[|a + b| - 1] == b[|b| - 1];
      BucketAppend(a, b', s);
    }
  }

  /** The three buckets together hold at most one delivery per kept
      delivery, so at most one per customer. */
  lemma {:induction false} BucketsFit(ks: seq<Delivery>)
    ensures |Bucket(ks, Delivered)| + |Bucket(ks, Transporting)| + |Bucket(ks, PickedUp)| <= |ks|
    decreases |ks|
  {
    if ks != [] {
      BucketsFit(ks[..|ks| - 1]);
    }
  }

  /** A kept delivery whose status is none of the three is in no bucket. */
  lemma OtherStatusDropped(ds: seq<Delivery>, x: Delivery)
    requires x in Kept(ds)
    requires Lower(x.status) !in {Delivered, Transporting, PickedUp}
    ensures forall s :: s in Board(Kept(ds)) ==> x !in Board(Kept(ds))[s]
  {
    forall s | s in Board(Kept(ds)) ensures x !in Board(Kept(ds))[s] {
      BucketMembership(Kept(ds), s, x);
    }
  }

  /** The board shows at most one delivery per customer of ds. */
  lemma BoardSize(ds: seq<Delivery>)
    ensures var b := Board(Kept(ds));
      |b[Delivered]| + |b[Transporting]| + |b[PickedUp]| <= |Customers(ds)|
  {
    BucketsFit(Kept(ds));
    KeptCount(ds);
  }
}
