/** Torrent descriptors, and the per-daemon lists the server keeps them in.

    A list is a vector searched linearly by torrent id. `AsMap` is what the list means:
    a map from torrent id to descriptor. The lemmas show that adding and removing on the
    vector are exactly update and deletion on that map. */
module Torrents {

  type Id = string

  datatype Status = NoStatus | Downloaded | Downloading | Generated | Generating | Paused | Error

  datatype Torrent = Torrent(id: Id, link: string, torrentFile: string, status: Status,
                             progress: int, project: string)

  /** What a list means: the first torrent with each id. */
  function AsMap(list: seq<Torrent>): map<Id, Torrent> {
    if list == [] then map[] else AsMap(list[1..])[list[0].id := list[0]]
  }

  function Ids(list: seq<Torrent>): set<Id> {
    AsMap(list).Keys
  }

  predicate Unique(list: seq<Torrent>) {
    list == [] || (list[0].id !in Ids(list[1..]) && Unique(list[1..]))
  }

  /** Overwrite the first torrent with this id, or append. */
  function Upsert(list: seq<Torrent>, t: Torrent): seq<Torrent> {
    if list == [] then [t]
    else if list[0].id == t.id then [t] + list[1..]
    else [list[0]] + Upsert(list[1..], t)
  }

  /** Erase the first torrent with this id, if there is one. */
  function Remove(list: seq<Torrent>, t: Torrent): seq<Torrent> {
    if list == [] then []
    else if list[0].id == t.id then list[1..]
    else [list[0]] + Remove(list[1..], t)
  }

  function UpsertAll(list: seq<Torrent>, more: seq<Torrent>): seq<Torrent>
    decreases |more|
  {
    if more == [] then list else UpsertAll(Upsert(list, more[0]), more[1..])
  }

  lemma {:induction false} UpsertRefines(list: seq<Torrent>, t: Torrent)
    requires Unique(list)
    ensures Unique(Upsert(list, t))
    ensures AsMap(Upsert(list, t)) == AsMap(list)[t.id := t]
  {
    if list != [] && list[0].id != t.id {
      UpsertRefines(list[1..], t);
      assert Upsert(list, t)[1..] == Upsert(list[1..], t);
    }
  }

  lemma {:induction false} RemoveRefines(list: seq<Torrent>, t: Torrent)
    requires Unique(list)
    ensures Unique(Remove(list, t))
    ensures AsMap(Remove(list, t)) == AsMap(list) - {t.id}
  {
    if list != [] && list[0].id != t.id {
      RemoveRefines(list[1..], t);
      assert Remove(list, t)[1..] == Remove(list[1..], t);
    }
  }

  lemma {:induction false} UpsertAllRefines(list: seq<Torrent>, more: seq<Torrent>)
    requires Unique(list)
    ensures Unique(UpsertAll(list, more))
    ensures Ids(UpsertAll(list, more)) == Ids(list) + Ids(more)
    decreases |more|
  {
    if more != [] {
      UpsertRefines(list, more[0]);
      UpsertAllRefines(Upsert(list, more[0]), more[1..]);
    }
  }

  /** `i` is where a linear search for `id` stops. */
  predicate FirstAt(list: seq<Torrent>, id: Id, i: nat) {
    i <= |list| && (i < |list| ==> list[i].id == id) && forall j :: 0 <= j < i ==> list[j].id != id
  }

  lemma FirstAtTail(list: seq<Torrent>, id: Id, i: nat)
    requires FirstAt(list, id, i) && i > 0
    ensures list[0].id != id && FirstAt(list[1..], id, i - 1)
  {
  }

  lemma {:induction false} UpsertAtFirst(list: seq<Torrent>, t: Torrent, i: nat)
    requires FirstAt(list, t.id, i)
    ensures Upsert(list, t) == if i < |list| then list[i := t] else list + [t]
  {
    if i > 0 {
      FirstAtTail(list, t.id, i);
      UpsertAtFirst(list[1..], t, i - 1);
      assert list == [list[0]] + list[1..];
    }
  }

  lemma ConsCut(list: seq<Torrent>, i: nat)
    requires 0 < i < |list|
    ensures [list[0]] + (list[1..][..i - 1] + list[1..][i..]) == list[..i] + list[i + 1..]
  {
  }

  lemma {:induction false} RemoveAtFirst(list: seq<Torrent>, t: Torrent, i: nat)
    requires FirstAt(list, t.id, i)
    ensures Remove(list, t) == if i < |list| then list[..i] + list[i + 1..] else list
  {
    if i > 0 {
      FirstAtTail(list, t.id, i);
      RemoveAtFirst(list[1..], t, i - 1);
      if i < |list| { ConsCut(list, i); } else { assert list == [list[0]] + list[1..]; }
    }
  }

  lemma {:induction false} UpsertAllStep(list: seq<Torrent>, more: seq<Torrent>, k: nat)
    requires k < |more|
    ensures UpsertAll(list, more[..k + 1]) == Upsert(UpsertAll(list, more[..k]), more[k])
    decreases k
  {
    if k > 0 {
      UpsertAllStep(Upsert(list, more[0]), more[1..], k - 1);
      assert more[..k + 1][1..] == more[1..][..k];
      assert more[..k][1..] == more[1..][..k - 1];
    } else {
      assert more[..1][1..] == [];
    }
  }
}
