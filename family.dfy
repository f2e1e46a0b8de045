/** Well-formedness of the stored pass list: every parent link and every pregnancy
    link points at an existing pass, parents are older than their children, and a
    child's generation is above both parents'. */
module Family {
  import opened Passes

  /** The pass with id i + 1 (stored at index i) is linked consistently with `ps`. */
  predicate WellLinked(ps: seq<Pass>, i: nat)
  {
    i < |ps| &&
    var p := ps[i];
    p.matronId <= i && p.sireId <= i &&
    (p.matronId == 0 <==> p.sireId == 0) &&
    (p.matronId != 0 ==> p.matronId != p.sireId) &&
    p.siringWithId <= |ps| && p.siringWithId != i + 1 &&
    (p.matronId != 0 ==>
       p.generation > ps[p.matronId - 1].generation && p.generation > ps[p.sireId - 1].generation)
  }

  predicate AllLinked(ps: seq<Pass>)
  {
    forall i :: 0 <= i < |ps| ==> WellLinked(ps, i)
  }

  /** Appending a pass that is linked into the list keeps the whole list linked. */
  lemma LinkedAppend(ps: seq<Pass>, child: Pass)
    requires AllLinked(ps)
    requires WellLinked(ps + [child], |ps|)
    ensures AllLinked(ps + [child])
  {
    var qs := ps + [child];
    forall i | 0 <= i < |qs|
      ensures WellLinked(qs, i)
    {
      if i < |ps| {
        assert WellLinked(ps, i);
        var p := ps[i];
        assert qs[i] == p;
        if p.matronId != 0 {
          assert qs[p.matronId - 1] == ps[p.matronId - 1];
          assert qs[p.sireId - 1] == ps[p.sireId - 1];
        }
      }
    }
  }

  /** Replacing the pass at index k by one with the same parents and generation and a
      pregnancy link to another existing pass keeps the list linked. */
  lemma LinkedUpdate(ps: seq<Pass>, k: nat, p: Pass)
    requires AllLinked(ps) && k < |ps|
    requires p.matronId == ps[k].matronId && p.sireId == ps[k].sireId && p.generation == ps[k].generation
    requires p.siringWithId <= |ps| && p.siringWithId != k + 1
    ensures AllLinked(ps[k := p])
  {
    var qs := ps[k := p];
    forall i | 0 <= i < |qs|
      ensures WellLinked(qs, i)
    {
      assert WellLinked(ps, i);
      var q := ps[i];
      if q.matronId != 0 {
        assert qs[q.matronId - 1].generation == ps[q.matronId - 1].generation;
        assert qs[q.sireId - 1].generation == ps[q.sireId - 1].generation;
      }
    }
  }

  /** The pass with id `a` is an ancestor of the pass with id `id`: a parent of it, or an
      ancestor of one of its parents. */
  ghost predicate Descends(ps: seq<Pass>, id: PassId, a: PassId)
    decreases id
  {
    1 <= id <= |ps| &&
    var p := ps[id - 1];
    p.matronId != 0 &&
    (p.matronId == a || p.sireId == a ||
     (p.matronId < id && Descends(ps, p.matronId, a)) ||
     (p.sireId < id && Descends(ps, p.sireId, a)))
  }

  /** In a well-linked list every ancestor is an existing pass with a smaller id and a
      lower generation. */
  lemma {:induction false} AncestorsOlder(ps: seq<Pass>, id: PassId, a: PassId)
    requires AllLinked(ps) && Descends(ps, id, a)
    ensures 1 <= a < id && ps[a - 1].generation < ps[id - 1].generation
    decreases id
  {
    var p := ps[id - 1];
    assert WellLinked(ps, id - 1);
    if p.matronId == a || p.sireId == a {
    } else if p.matronId < id && Descends(ps, p.matronId, a) {
      AncestorsOlder(ps, p.matronId, a);
    } else {
      AncestorsOlder(ps, p.sireId, a);
    }
  }

  /** No pass is its own ancestor: the family graph of a well-linked list has no cycle. */
  lemma NoPassIsItsOwnAncestor(ps: seq<Pass>, id: PassId)
    requires AllLinked(ps)
    ensures !Descends(ps, id, id)
  {
    if Descends(ps, id, id) {
      AncestorsOlder(ps, id, id);
    }
  }
}
