/**
 * SelectedToolModeRendererRegistry: the icon renderers of the selected tool mode, keyed by their
 * ids. Registration puts each renderer in turn and fails on the first id that was already taken,
 * after that put has happened.
 */
module SelectedToolModeRendererRegistry {
  import opened Wrappers

  /** A ResourceLocation, as its text. */
  type Id = string

  /** A renderer instance: its id and which implementation it is. */
  datatype Renderer = Renderer(id: Id, impl: nat)

  /** What a register call leaves behind: the map, and Fail(id) for the IllegalArgumentException on a taken id. */
  datatype Registration = Registration(renderers: map<Id, Renderer>, outcome: Outcome<Id>)

  /** Every renderer put into the map, in order, with no check. */
  function PutAll(m: map<Id, Renderer>, rs: seq<Renderer>): map<Id, Renderer>
    decreases |rs|
  {
    if rs == [] then m else PutAll(m[rs[0].id := rs[0]], rs[1..])
  }

  /** The puts add exactly the renderers' ids as keys. */
  lemma {:induction false} PutAllKeys(m: map<Id, Renderer>, rs: seq<Renderer>)
    ensures PutAll(m, rs).Keys == m.Keys + set i | 0 <= i < |rs| :: rs[i].id
    decreases |rs|
  {
    if rs != [] {
      PutAllKeys(m[rs[0].id := rs[0]], rs[1..]);
      var ids := set i | 0 <= i < |rs| :: rs[i].id;
      var rest := set i | 0 <= i < |rs[1..]| :: rs[1..][i].id;
      assert ids == {rs[0].id} + rest by {
        forall x | x in ids ensures x in {rs[0].id} + rest {
          var i :| 0 <= i < |rs| && rs[i].id == x;
          if i > 0 {
            assert rs[1..][i - 1].id == x;
          }
        }
        forall x | x in rest ensures x in ids {
          var i :| 0 <= i < |rs[1..]| && rs[1..][i].id == x;
          assert rs[i + 1].id == x;
        }
      }
    }
  }

  /** The ids are all new and pairwise distinct. */
  predicate Fresh(m: map<Id, Renderer>, rs: seq<Renderer>) {
    && (forall i :: 0 <= i < |rs| ==> rs[i].id !in m)
    && (forall i, j :: 0 <= i < j < |rs| ==> rs[i].id != rs[j].id)
  }

  /** register(renderers...) on a map: put one at a time, stopping after the put that replaced an entry. */
  function Registered(m: map<Id, Renderer>, rs: seq<Renderer>): Registration
    decreases |rs|
  {
    if rs == [] then Registration(m, Pass)
    else if rs[0].id in m then Registration(m[rs[0].id := rs[0]], Fail(rs[0].id))
    else Registered(m[rs[0].id := rs[0]], rs[1..])
  }

  /** Registration succeeds exactly when the ids are fresh; then each renderer is stored under its id and nothing else changes. */
  lemma {:induction false} RegisterSucceeds(m: map<Id, Renderer>, rs: seq<Renderer>)
    ensures Registered(m, rs).outcome.Pass? <==> Fresh(m, rs)
    ensures Fresh(m, rs) ==>
              && Registered(m, rs).renderers == PutAll(m, rs)
              && (forall i :: 0 <= i < |rs| ==>
                    rs[i].id in Registered(m, rs).renderers && Registered(m, rs).renderers[rs[i].id] == rs[i])
              && (forall id :: id in m ==> id in Registered(m, rs).renderers && Registered(m, rs).renderers[id] == m[id])
    decreases |rs|
  {
    if rs != [] {
      var m1 := m[rs[0].id := rs[0]];
      RegisterSucceeds(m1, rs[1..]);
      if Fresh(m, rs) {
        assert Fresh(m1, rs[1..]) by {
          forall i | 0 <= i < |rs[1..]|
            ensures rs[1..][i].id !in m1
          {
            assert rs[1..][i] == rs[i + 1];
          }
          forall i, j | 0 <= i < j < |rs[1..]|
            ensures rs[1..][i].id != rs[1..][j].id
          {
            assert rs[1..][i] == rs[i + 1] && rs[1..][j] == rs[j + 1];
          }
        }
        forall i | 0 <= i < |rs|
          ensures rs[i].id in Registered(m, rs).renderers && Registered(m, rs).renderers[rs[i].id] == rs[i]
        {
          if i > 0 {
            assert rs[1..][i - 1] == rs[i];
          }
        }
      } else if rs[0].id !in m {
        assert !Fresh(m1, rs[1..]) by {
          if Fresh(m1, rs[1..]) {
            forall i | 0 <= i < |rs|
              ensures rs[i].id !in m
            {
              if i > 0 {
                assert rs[1..][i - 1] == rs[i];
              }
            }
            forall i, j | 0 <= i < j < |rs|
              ensures rs[i].id != rs[j].id
            {
              if i > 0 {
                assert rs[1..][i - 1] == rs[i] && rs[1..][j - 1] == rs[j];
              } else {
                assert rs[1..][j - 1] == rs[j];
              }
            }
            assert Fresh(m, rs);
          }
        }
      }
    }
  }

  /**
   * A failed registration names the id of the k-th renderer, which was taken either before the
   * call or by an earlier renderer of the same call; renderer k has replaced that entry, and the
   * map is exactly the puts of the first k + 1 renderers.
   */
  lemma {:induction false} RegisterFailure(m: map<Id, Renderer>, rs: seq<Renderer>, id: Id) returns (k: nat)
    requires Registered(m, rs).outcome == Fail(id)
    ensures k < |rs| && rs[k].id == id
    ensures Registered(m, rs).renderers == PutAll(m, rs[..k + 1])
    ensures id in Registered(m, rs).renderers && Registered(m, rs).renderers[id] == rs[k]
    ensures id in m || exists i :: 0 <= i < k && rs[i].id == id
    decreases |rs|
  {
    var m1 := m[rs[0].id := rs[0]];
    if rs[0].id in m {
      assert rs[..1] == [rs[0]];
      assert PutAll(m, rs[..1]) == PutAll(m1, []);
      k := 0;
    } else {
      assert Registered(m, rs) == Registered(m1, rs[1..]);
      var k1 := RegisterFailure(m1, rs[1..], id);
      k := k1 + 1;
      PutAllShift(m, rs, k1);
      assert rs[k] == rs[1..][k1];
      ShiftWitness(m, rs, k1, id);
    }
  }

  /** Putting the first k + 2 renderers is putting the first one, then the next k + 1. */
  lemma PutAllShift(m: map<Id, Renderer>, rs: seq<Renderer>, k: nat)
    requires k + 1 < |rs|
    ensures PutAll(m, rs[..k + 2]) == PutAll(m[rs[0].id := rs[0]], rs[1..][..k + 1])
  {
    assert rs[..k + 2][1..] == rs[1..][..k + 1];
  }

  /** A taken id seen one step later was taken before, or by the first renderer. */
  lemma ShiftWitness(m: map<Id, Renderer>, rs: seq<Renderer>, k: nat, id: Id)
    requires k + 1 < |rs|
    requires id in m[rs[0].id := rs[0]] || exists i :: 0 <= i < k && rs[1..][i].id == id
    ensures id in m || exists i :: 0 <= i < k + 1 && rs[i].id == id
  {
    if id !in m {
      if id == rs[0].id {
        assert rs[0].id == id;
      } else {
        var i :| 0 <= i < k && rs[1..][i].id == id;
        assert rs[i + 1].id == id;
      }
    }
  }

  /** Renderers put before the failing one stay registered under their ids. */
  lemma EarlierStay(m: map<Id, Renderer>, rs: seq<Renderer>, k: nat, i: nat)
    requires i < k < |rs|
    ensures rs[i].id in PutAll(m, rs[..k + 1])
  {
    PutAllKeys(m, rs[..k + 1]);
    assert rs[..k + 1][i] == rs[i];
  }

  class RendererRegistry {
    const rootId: Id
    var rendererMap: map<Id, Renderer>

    /** The registry starts with the root-group top-left renderer and the no-op renderer. */
    constructor (root: Renderer, noop: Renderer)
      requires root.id != noop.id
      ensures rendererMap == map[root.id := root, noop.id := noop] && rootId == root.id
    {
      rootId := root.id;
      rendererMap := map[];
      new;
      var outcome := Register([root, noop]);
      assert Registered(map[], [root, noop]) == Registered(map[root.id := root], [noop]);
      assert Registered(map[root.id := root], [noop]) == Registered(map[root.id := root, noop.id := noop], []);
    }

    /** register: the map and the outcome are those of Registered on the old map. */
    method Register(renderers: seq<Renderer>) returns (outcome: Outcome<Id>)
      modifies this
      ensures Registration(rendererMap, outcome) == Registered(old(rendererMap), renderers)
    {
      var i := 0;
      while i < |renderers|
        invariant 0 <= i <= |renderers|
        invariant Registered(old(rendererMap), renderers)
               == Registered(rendererMap, renderers[i..])
      {
        var renderer := renderers[i];
        var previous := renderer.id in rendererMap;
        assert renderers[i..][1..] == renderers[i + 1..];
        rendererMap := rendererMap[renderer.id := renderer];
        if previous {
          return Fail(renderer.id);
        }
        i := i + 1;
      }
      return Pass;
    }

    /** getCurrent: the configured renderer when registered, else the root renderer (None when that is absent too). */
    function GetCurrent(configured: Id): (r: Option<Renderer>)
      reads this
      ensures configured in rendererMap ==> r == Some(rendererMap[configured])
      ensures configured !in rendererMap && rootId in rendererMap ==> r == Some(rendererMap[rootId])
      ensures r.None? <==> configured !in rendererMap && rootId !in rendererMap
    {
      if configured in rendererMap then Some(rendererMap[configured])
      else if rootId in rendererMap then Some(rendererMap[rootId])
      else None
    }
  }

  /** A fresh registry always has a current renderer: the no-op one when configured, else the root one. */
  lemma FreshRegistryCurrent(root: Renderer, noop: Renderer, configured: Id, reg: RendererRegistry)
    requires root.id != noop.id && reg.rootId == root.id
    requires reg.rendererMap == map[root.id := root, noop.id := noop]
    ensures reg.GetCurrent(configured) == Some(if configured == noop.id then noop else root)
  {
  }
}
