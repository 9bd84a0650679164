/** std::string's order, and std::map's iteration order over string keys. */
module Order {

  predicate Less(a: string, b: string) {
    b != "" && (a == "" || a[0] < b[0] || (a[0] == b[0] && Less(a[1..], b[1..])))
  }

  lemma {:induction false} Irreflexive(a: string)
    ensures !Less(a, a)
  {
    if a != "" {
      Irreflexive(a[1..]);
    }
  }

  lemma {:induction false} Trichotomy(a: string, b: string)
    ensures a == b || Less(a, b) || Less(b, a)
  {
    if a != "" && b != "" && a[0] == b[0] {
      Trichotomy(a[1..], b[1..]);
      assert a == [a[0]] + a[1..] && b == [b[0]] + b[1..];
    }
  }

  lemma {:induction false} Transitive(a: string, b: string, c: string)
    requires Less(a, b) && Less(b, c)
    ensures Less(a, c)
  {
    if a != "" && a[0] == b[0] == c[0] {
      Transitive(a[1..], b[1..], c[1..]);
    }
  }

  /** At the first position where they differ the smaller character decides, and a proper prefix is less. */
  lemma {:induction false} FirstDifference(a: string, b: string)
    ensures Less(a, b) <==>
              exists k: nat :: k <= |a| && k < |b| && a[..k] == b[..k] && (k == |a| || a[k] < b[k])
  {
    if a != "" && b != "" && a[0] == b[0] {
      FirstDifference(a[1..], b[1..]);
      forall k: nat | k < |a| && k < |b| - 1
        ensures a[1..][..k] == b[1..][..k] <==> a[..k + 1] == b[..k + 1]
      {
        assert a[..k + 1] == [a[0]] + a[1..][..k] && b[..k + 1] == [b[0]] + b[1..][..k];
        assert a[..k + 1][1..] == a[1..][..k] && b[..k + 1][1..] == b[1..][..k];
      }
      if k: nat :| k < |a| && k < |b| - 1 && a[1..][..k] == b[1..][..k] && (k == |a| - 1 || a[1..][k] < b[1..][k]) {
        assert a[..k + 1] == b[..k + 1];
      }
      if k: nat :| k <= |a| && k < |b| && a[..k] == b[..k] && (k == |a| || a[k] < b[k]) {
        assert k > 0 && a[1..][..k - 1] == b[1..][..k - 1];
      }
    } else {
      assert a[..0] == b[..0];
      forall k: nat | 0 < k <= |a| && k < |b| && a[..k] == b[..k] ensures a[0] == b[0] {
        assert a[..k][0] == b[..k][0];
      }
    }
  }

  predicate Ascending(ids: seq<string>) {
    forall i, j | 0 <= i < j < |ids| :: Less(ids[i], ids[j])
  }

  /** The next key of a std::map iteration. */
  method Least(ids: set<string>) returns (least: string)
    requires ids != {}
    ensures least in ids && forall id | id in ids && id != least :: Less(least, id)
  {
    least :| least in ids;
    var todo := ids - {least};
    while todo != {}
      invariant least in ids && todo <= ids && least !in todo
      invariant forall id | id in ids && id != least && id !in todo :: Less(least, id)
    {
      var id :| id in todo;
      todo := todo - {id};
      Trichotomy(least, id);
      if Less(id, least) {
        forall other | other in ids && other != id && other !in todo && other != least ensures Less(id, other) {
          Transitive(id, least, other);
        }
        least := id;
      }
    }
  }

  /** A std::map's keys, in iteration order. */
  method Keys(ids: set<string>) returns (r: seq<string>)
    ensures Ascending(r) && forall id :: id in r <==> id in ids
  {
    r := [];
    var todo := ids;
    while todo != {}
      invariant todo <= ids && Ascending(r)
      invariant forall id :: id in r <==> id in ids && id !in todo
      invariant forall a, b | a in r && b in todo :: Less(a, b)
    {
      var id := Least(todo);
      todo := todo - {id};
      r := r + [id];
    }
  }
}
