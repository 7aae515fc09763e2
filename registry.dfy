/**
 * The presence registry of server.js: the ordered lists of connected customers and
 * sellers, the duplicate check (`.some`), the lookup (`.find`), the removal by socket
 * id (`.filter`) and the single admin slot, as pure functions on values.
 */
module Registry {
  import opened Wrappers

  /** Free-form profile or message object; every value is taken to be a string. */
  type Info = map<string, string>

  /**
   * One presence entry `{customerId, socketId, userInfo}` (customer list) or
   * `{sellerId, socketId, userInfo}` (seller list); `id` stands for either key.
   */
  datatype Entry = Entry(id: string, socketId: string, userInfo: Info)

  /** The duplicate check of addUser/addSeller: some entry carries `id`. */
  predicate Contains(list: seq<Entry>, id: string)
  {
    exists i | 0 <= i < |list| :: list[i].id == id
  }

  /** No participant id occurs twice in the list. */
  ghost predicate Distinct(list: seq<Entry>)
  {
    forall i, j | 0 <= i < j < |list| :: list[i].id != list[j].id
  }

  /**
   * findCustomer/findSeller: the first entry carrying `id`, or `undefined`.
   */
  function Find(list: seq<Entry>, id: string): (r: Option<Entry>)
    ensures r.None? <==> !Contains(list, id)
    ensures r.Some? ==> r.value.id == id
    ensures r.Some? ==> exists i | 0 <= i < |list| :: list[i] == r.value && !Contains(list[..i], id)
  {
    if list == [] then None
    else if list[0].id == id then
      assert list[..0] == [];
      Some(list[0])
    else
      var r := Find(list[1..], id);
      assert Contains(list[1..], id) ==> Contains(list, id);
      assert Contains(list, id) ==> Contains(list[1..], id) by {
        if Contains(list, id) {
          var i :| 0 <= i < |list| && list[i].id == id;
          assert i != 0 && list[1..][i - 1].id == id;
        }
      }
      if r.Some? then
        assert exists i | 0 <= i < |list| :: list[i] == r.value && !Contains(list[..i], id) by {
          var i :| 0 <= i < |list[1..]| && list[1..][i] == r.value && !Contains(list[1..][..i], id);
          assert list[..i + 1] == [list[0]] + list[1..][..i];
          assert list[i + 1] == r.value;
        }
        r
      else
        r
  }

  /**
   * The list update of addUser/addSeller: append a new entry unless some entry already
   * carries `id`.
   */
  function Added(list: seq<Entry>, id: string, socketId: string, userInfo: Info): seq<Entry>
  {
    if Contains(list, id) then list else list + [Entry(id, socketId, userInfo)]
  }

  /** The filter of `remove`: keep the entries on any other socket id. */
  function Without(list: seq<Entry>, socketId: string): (r: seq<Entry>)
    ensures |r| <= |list|
    ensures forall e :: e in r <==> e in list && e.socketId != socketId
  {
    if list == [] then []
    else (if list[0].socketId != socketId then [list[0]] else []) + Without(list[1..], socketId)
  }

  /** What `admin.socketId` evaluates to, when it is truthy (present and not ""). */
  function AdminTarget(admin: Info): Option<string>
  {
    if "socketId" in admin && admin["socketId"] != "" then Some(admin["socketId"]) else None
  }

  /** The admin slot holds `{}` or an object that carries a `socketId`. */
  ghost predicate AdminShaped(admin: Info)
  {
    admin == map[] || "socketId" in admin
  }

  /**
   * The object the add_admin handler stores: the profile without its email, with the
   * registering connection's socket id.
   */
  function RegisteredAdmin(adminInfo: Info, socketId: string): (admin: Info)
    ensures "email" !in admin
    ensures "socketId" in admin && admin["socketId"] == socketId
    ensures forall k | k != "email" && k != "socketId" :: k in admin <==> k in adminInfo
    ensures forall k | k in admin && k != "socketId" :: admin[k] == adminInfo[k]
    ensures AdminShaped(admin)
  {
    (adminInfo - {"email"})["socketId" := socketId]
  }

  /** The slot after removeAdmin: emptied when it holds `socketId`, otherwise unchanged. */
  function AdminAfterRemove(admin: Info, socketId: string): Info
  {
    if "socketId" in admin && admin["socketId"] == socketId then map[] else admin
  }

  // ---------------------------------------------------------------- lemmas

  /** Appending one entry extends `Find` in the obvious way. */
  lemma {:induction false} FindAppend(list: seq<Entry>, e: Entry, id: string)
    ensures Find(list + [e], id) ==
              if Contains(list, id) then Find(list, id)
              else if e.id == id then Some(e) else None
  {
    if list == [] {
      assert [] + [e] == [e];
      assert !Contains([], id);
    } else {
      assert (list + [e])[1..] == list[1..] + [e];
      if list[0].id != id {
        FindAppend(list[1..], e, id);
        assert Contains(list, id) <==> Contains(list[1..], id) by {
          if Contains(list, id) {
            var i :| 0 <= i < |list| && list[i].id == id;
            assert list[1..][i - 1].id == id;
          }
          if Contains(list[1..], id) {
            var i :| 0 <= i < |list[1..]| && list[1..][i].id == id;
            assert list[i + 1].id == id;
          }
        }
      }
    }
  }

  /** addUser/addSeller: a new id is appended at the end, and looking it up finds the new entry. */
  lemma AddNewId(list: seq<Entry>, id: string, socketId: string, userInfo: Info)
    requires !Contains(list, id)
    ensures Added(list, id, socketId, userInfo) == list + [Entry(id, socketId, userInfo)]
    ensures Find(Added(list, id, socketId, userInfo), id) == Some(Entry(id, socketId, userInfo))
  {
    FindAppend(list, Entry(id, socketId, userInfo), id);
  }

  /**
   * addUser/addSeller: registering an id that is already present changes nothing, so the
   * first socket id stays the one of record.
   */
  lemma AddDuplicateId(list: seq<Entry>, id: string, socketId: string, userInfo: Info)
    requires Contains(list, id)
    ensures Added(list, id, socketId, userInfo) == list
    ensures Find(Added(list, id, socketId, userInfo), id) == Find(list, id)
  {
  }

  /** Adding under one id never changes what another id resolves to. */
  lemma AddOtherId(list: seq<Entry>, id: string, socketId: string, userInfo: Info, other: string)
    requires other != id
    ensures Find(Added(list, id, socketId, userInfo), other) == Find(list, other)
  {
    if !Contains(list, id) {
      FindAppend(list, Entry(id, socketId, userInfo), other);
    }
  }

  /** The distinct-id invariant is kept by addUser/addSeller. */
  lemma AddKeepsDistinct(list: seq<Entry>, id: string, socketId: string, userInfo: Info)
    requires Distinct(list)
    ensures Distinct(Added(list, id, socketId, userInfo))
  {
  }

  /** Every entry kept by the filter comes from the original list (ids included). */
  lemma WithoutContains(list: seq<Entry>, socketId: string, id: string)
    requires Contains(Without(list, socketId), id)
    ensures Contains(list, id)
  {
  }

  /** The filter distributes over concatenation: it keeps the survivors in their original order. */
  lemma {:induction false} WithoutConcat(a: seq<Entry>, b: seq<Entry>, socketId: string)
    ensures Without(a + b, socketId) == Without(a, socketId) + Without(b, socketId)
  {
    if a == [] {
      assert a + b == b;
    } else {
      assert (a + b)[0] == a[0];
      assert (a + b)[1..] == a[1..] + b;
      WithoutConcat(a[1..], b, socketId);
    }
  }

  /** An entry whose socket id differs is kept; one whose socket id matches is dropped. */
  lemma WithoutSingle(e: Entry, socketId: string)
    ensures Without([e], socketId) == if e.socketId == socketId then [] else [e]
  {
  }

  /** Removal by a socket id no entry carries leaves the list unchanged. */
  lemma {:induction false} WithoutAbsent(list: seq<Entry>, socketId: string)
    requires forall e | e in list :: e.socketId != socketId
    ensures Without(list, socketId) == list
  {
    if list != [] {
      WithoutAbsent(list[1..], socketId);
      assert [list[0]] + list[1..] == list;
    }
  }

  /** `remove` is idempotent: a second removal by the same socket id is a no-op. */
  lemma WithoutIdempotent(list: seq<Entry>, socketId: string)
    ensures Without(Without(list, socketId), socketId) == Without(list, socketId)
  {
    WithoutAbsent(Without(list, socketId), socketId);
  }

  /** Dropping the head of a list keeps its ids distinct. */
  lemma DistinctTail(list: seq<Entry>)
    requires Distinct(list) && list != []
    ensures Distinct(list[1..])
    ensures !Contains(list[1..], list[0].id)
  {
  }

  /** Putting an entry with a fresh id in front of a distinct list keeps it distinct. */
  lemma DistinctCons(e: Entry, tail: seq<Entry>)
    requires Distinct(tail) && !Contains(tail, e.id)
    ensures Distinct([e] + tail)
  {
  }

  /** The distinct-id invariant is kept by `remove`. */
  lemma {:induction false} WithoutKeepsDistinct(list: seq<Entry>, socketId: string)
    requires Distinct(list)
    ensures Distinct(Without(list, socketId))
  {
    if list != [] {
      var tail := Without(list[1..], socketId);
      DistinctTail(list);
      WithoutKeepsDistinct(list[1..], socketId);
      if list[0].socketId != socketId {
        if Contains(tail, list[0].id) {
          WithoutContains(list[1..], socketId, list[0].id);
        }
        DistinctCons(list[0], tail);
      } else {
        assert [] + tail == tail;
      }
    }
  }

  /**
   * Under the distinct-id invariant, an entry can be found by its id: the lookup resolves to that
   * entry, and so to its socket id, and to no other.
   */
  lemma FindUnique(list: seq<Entry>, i: nat)
    requires Distinct(list)
    requires i < |list|
    ensures Find(list, list[i].id) == Some(list[i])
  {
  }

  /**
   * After `remove(s)`, a participant whose entry had socket id `s` can no longer be found,
   * so a message addressed to it is dropped.
   */
  lemma RemovedIdIsGone(list: seq<Entry>, socketId: string, i: nat)
    requires Distinct(list)
    requires i < |list| && list[i].socketId == socketId
    ensures Find(Without(list, socketId), list[i].id) == None
  {
  }

  /** `removeAdmin(s)` empties the slot exactly when it holds socket id `s`. */
  lemma AdminRemoval(admin: Info, socketId: string)
    requires AdminShaped(admin)
    ensures AdminAfterRemove(admin, socketId) == map[] <==>
              admin == map[] || admin["socketId"] == socketId
    ensures AdminAfterRemove(admin, socketId) != map[] ==> AdminAfterRemove(admin, socketId) == admin
    ensures AdminShaped(AdminAfterRemove(admin, socketId))
    ensures AdminAfterRemove(AdminAfterRemove(admin, socketId), socketId) == AdminAfterRemove(admin, socketId)
  {
  }

  /**
   * The admin's reachability over the slot's lifecycle: the empty slot reaches nobody;
   * after add_admin on a (non-empty) socket id the admin is reachable there; after
   * removeAdmin of a socket id that socket is no longer the admin's.
   */
  lemma AdminLifecycle(adminInfo: Info, admin: Info, socketId: string)
    ensures AdminTarget(map[]) == None
    ensures socketId != "" ==> AdminTarget(RegisteredAdmin(adminInfo, socketId)) == Some(socketId)
    ensures AdminTarget(AdminAfterRemove(admin, socketId)) != Some(socketId)
  {
  }
}
