/** The per-uid watcher maps (`brosWatchers`, `smsWatchers`, `simWatchers`): a map
    from uid to the store reference whose `value` listener was attached, beside
    the set of listeners the store actually keeps alive. */
module Watch {
  import opened Tree

  /** One attached `value` listener: a fresh id and the path it listens on. */
  datatype Handle = Handle(id: nat, path: Path)

  class Watchers {
    /** Every uid is watched at `root + [uid]`. */
    const root: Path
    /** The JavaScript `Map` from uid to reference. */
    var handles: map<string, Handle>
    /** The listeners the store would call on a change. */
    var live: set<Handle>
    var nextId: nat

    /** Each mapped handle listens at its uid's path and is alive; each live
        listener sits directly below `root`, under a uid that is mapped. */
    predicate Valid()
      reads this
    {
      (forall u :: u in handles ==> handles[u].path == root + [u] && handles[u] in live)
      && (forall h :: h in live ==>
            h.id < nextId && |h.path| == |root| + 1 && h.path[..|root|] == root
            && h.path[|root|] in handles)
    }

    /** The map's handles are the only live listeners: none has leaked. */
    predicate OnePerUid()
      reads this
    {
      Valid() && forall h :: h in live ==> h == handles[h.path[|root|]]
    }

    /** The listeners a change at `p` would call. */
    function ListenersAt(p: Path): set<Handle>
      reads this
    {
      set h | h in live && h.path == p
    }

    constructor (root: Path)
      ensures this.root == root && handles == map[] && live == {} && nextId == 0
      ensures OnePerUid()
    {
      this.root := root;
      handles := map[];
      live := {};
      nextId := 0;
    }

    /** Without leaked listeners, a watched uid has exactly its mapped listener
        and an unwatched one has none: a change is reported at most once. */
    lemma {:induction false} OneListener(u: string)
      requires OnePerUid()
      ensures ListenersAt(root + [u]) == if u in handles then {handles[u]} else {}
    {
      var p := root + [u];
      assert p[..|root|] == root && p[|root|] == u;
      forall h | h in live && h.path == p ensures u in handles && h == handles[u] {
        assert h.path[|root|] == u;
      }
    }

    /** `stopWatcher(map, uid)`: for a mapped uid, `ref.off()` detaches every
        listener at that path and the entry is deleted; otherwise nothing changes. */
    method Stop(uid: string)
      requires Valid()
      modifies this
      ensures handles == old(handles) - {uid}
      ensures live == if uid in old(handles) then old(live) - old(ListenersAt(root + [uid])) else old(live)
      ensures uid !in old(handles) ==> live == old(live) && handles == old(handles)
      ensures nextId == old(nextId)
      ensures Valid()
      ensures ListenersAt(root + [uid]) == {}
      ensures old(OnePerUid()) ==> OnePerUid()
    {
      var p := root + [uid];
      assert p[..|root|] == root && p[|root|] == uid;
      if uid in handles {
        live := set h | h in live && h.path != p;
        handles := handles - {uid};
        forall h | h in live ensures h.path[|root|] in handles {
          assert h.path != p;
          assert h.path == h.path[..|root|] + [h.path[|root|]];
        }
      } else {
        forall h | h in live ensures h.path != p {
          assert h.path[|root|] in handles;
        }
        assert handles - {uid} == handles;
      }
    }

    /** `start*Watcher(uid)`: attaches a new listener at the uid's path and maps
        the uid to it. A listener already mapped for the uid is not detached. */
    method Start(uid: string) returns (h: Handle)
      requires Valid()
      modifies this
      ensures h == Handle(old(nextId), root + [uid]) && h !in old(live)
      ensures handles == old(handles)[uid := h]
      ensures live == old(live) + {h}
      ensures nextId == old(nextId) + 1
      ensures Valid()
      ensures ListenersAt(root + [uid]) == old(ListenersAt(root + [uid])) + {h}
      ensures old(OnePerUid()) && uid !in old(handles) ==> OnePerUid()
      ensures uid in old(handles) ==> old(handles)[uid] in live && old(handles)[uid] != h
    {
      var p := root + [uid];
      assert p[..|root|] == root && p[|root|] == uid;
      h := Handle(nextId, p);
      live := live + {h};
      handles := handles[uid := h];
      nextId := nextId + 1;
    }

    /** What every route does: stop, then start. Whatever was attached before,
        the uid is left with exactly one live listener, the new one. */
    method Restart(uid: string) returns (h: Handle)
      requires Valid()
      modifies this
      ensures Valid()
      ensures handles == old(handles)[uid := h] && h.path == root + [uid]
      ensures ListenersAt(root + [uid]) == {h}
      ensures old(OnePerUid()) ==> OnePerUid()
    {
      ghost var one, hs := OnePerUid(), handles;
      Stop(uid);
      assert uid !in handles && ListenersAt(root + [uid]) == {};
      assert one ==> OnePerUid();
      h := Start(uid);
      assert (hs - {uid})[uid := h] == hs[uid := h];
    }
  }
}
