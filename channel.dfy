/**
 * The shared event channels of the native event emitter: the envelopes the
 * native layer pushes, and the subscriptions a listener closure holds.
 * A subscription is removed by identity, as `subscription.remove()` does.
 */
module Channel {
  import opened Common

  /** An envelope pushed on a channel: its discriminating name, an optional error text, and a placement name. */
  datatype Event = Event(name: string, error: Option<string>, placement: string)

  /** One live subscription: a unique handle and the kind of closure behind it. */
  datatype Subscription<K> = Subscription(id: nat, kind: K)

  /** No two subscriptions share a handle. */
  predicate UniqueIds<K>(subs: seq<Subscription<K>>)
  {
    forall i, j :: 0 <= i < j < |subs| ==> subs[i].id != subs[j].id
  }

  /** The subscriptions left after the one with handle `id` removes itself. */
  function Without<K(==, !new)>(subs: seq<Subscription<K>>, id: nat): (r: seq<Subscription<K>>)
    ensures |r| <= |subs|
  {
    if subs == [] then []
    else if subs[0].id == id then Without(subs[1..], id)
    else [subs[0]] + Without(subs[1..], id)
  }

  /** Removal drops exactly the subscriptions holding the removed handle and keeps every other one. */
  lemma {:induction false} WithoutMembers<K(!new)>(subs: seq<Subscription<K>>, id: nat)
    ensures forall x :: x in Without(subs, id) <==> x in subs && x.id != id
  {
    if subs != [] {
      WithoutMembers(subs[1..], id);
      assert subs == [subs[0]] + subs[1..];
      assert forall x :: x in subs <==> x == subs[0] || x in subs[1..];
    }
  }

  /** Removal distributes over concatenation. */
  lemma {:induction false} WithoutConcat<K(!new)>(a: seq<Subscription<K>>, b: seq<Subscription<K>>, id: nat)
    ensures Without(a + b, id) == Without(a, id) + Without(b, id)
  {
    if a == [] {
      assert a + b == b;
    } else {
      assert (a + b)[0] == a[0];
      assert (a + b)[1..] == a[1..] + b;
      WithoutConcat(a[1..], b, id);
    }
  }

  /** Removing a handle nobody holds changes nothing. */
  lemma {:induction false} WithoutAbsent<K(!new)>(a: seq<Subscription<K>>, id: nat)
    requires forall x :: x in a ==> x.id != id
    ensures Without(a, id) == a
  {
    if a != [] {
      assert a[0] in a;
      forall x | x in a[1..] ensures x.id != id {
        assert x in a;
      }
      WithoutAbsent(a[1..], id);
      assert a == [a[0]] + a[1..];
    }
  }

  /** A lone subscription removing itself leaves nothing. */
  lemma WithoutSelf<K(!new)>(s: Subscription<K>)
    ensures Without([s], s.id) == []
  {
    assert [s][1..] == [];
  }

  /** Removal keeps the handles unique. */
  lemma {:induction false} WithoutUnique<K(!new)>(a: seq<Subscription<K>>, id: nat)
    requires UniqueIds(a)
    ensures UniqueIds(Without(a, id))
  {
    if a != [] {
      assert UniqueIds(a[1..]) by {
        forall i, j | 0 <= i < j < |a[1..]| ensures a[1..][i].id != a[1..][j].id {
          assert a[1..][i] == a[i + 1] && a[1..][j] == a[j + 1];
        }
      }
      WithoutUnique(a[1..], id);
      WithoutMembers(a[1..], id);
      var rest := Without(a[1..], id);
      if a[0].id != id {
        forall x | x in rest ensures x.id != a[0].id {
          var j :| 0 <= j < |a[1..]| && a[1..][j] == x;
          assert a[j + 1] == x;
        }
        var r := [a[0]] + rest;
        forall i, j | 0 <= i < j < |r| ensures r[i].id != r[j].id {
          if i == 0 {
            assert r[j] == rest[j - 1] && r[j] in rest;
          } else {
            assert r[i] == rest[i - 1] && r[j] == rest[j - 1];
          }
        }
      }
    }
  }
}
