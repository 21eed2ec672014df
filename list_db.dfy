/** The append-only list of saved analyses, kept as one JSON array under
    a single storage key. Saving appends (duplicate ids allowed),
    deleting keeps every entry with another id in order. */
module ListDb {
  import opened Js
  import opened AnalysisSchema
  import opened Collections

  /** A saved analysis as the list stores it. */
  datatype Entry = Entry(
    id: string,
    startup_name: string,
    startup_url: string,
    problem: Problem,
    solution: Solution,
    product_type: string,
    sector: string,
    subsector: string,
    active_locations: seq<string>,
    competition: seq<Competitor>,
    sources: seq<string>,
    created_at: string)

  /** What the storage key holds. */
  datatype Blob = Absent | Corrupt | Present(entries: seq<Entry>)

  predicate HasId(xs: seq<Entry>, id: string) {
    exists i :: 0 <= i < |xs| && xs[i].id == id
  }

  /** `find(a => a.id === id) || null`: the entry at the first index
      whose id matches. */
  function FindById(xs: seq<Entry>, id: string): (r: Option<Entry>)
    ensures r.None? <==> !HasId(xs, id)
    ensures r.Some? ==>
      (exists i :: 0 <= i < |xs| && xs[i] == r.value && r.value.id == id && !HasId(xs[..i], id))
  {
    if xs == [] then None
    else if xs[0].id == id then
      assert xs[..0] == [];
      Some(xs[0])
    else
      var r := FindById(xs[1..], id);
      assert HasId(xs, id) ==> HasId(xs[1..], id) by {
        if HasId(xs, id) {
          var i :| 0 <= i < |xs| && xs[i].id == id;
          assert xs[1..][i - 1].id == id;
        }
      }
      if r.Some? then
        var i :| 0 <= i < |xs[1..]| && xs[1..][i] == r.value && r.value.id == id && !HasId(xs[1..][..i], id);
        assert xs[i + 1] == r.value;
        ghost var before := xs[..i + 1];
        assert !HasId(before, id) by {
          forall k | 0 <= k < |before| ensures before[k].id != id {
            if k > 0 { assert before[k] == xs[1..][..i][k - 1]; }
          }
        }
        r
      else
        assert !HasId(xs[1..], id);
        r
  }

  /** `filter(a => a.id !== id)`. */
  function RemoveId(xs: seq<Entry>, id: string): (r: seq<Entry>)
    ensures !HasId(r, id)
    ensures |r| <= |xs|
    ensures forall e :: e in r <==> e in xs && e.id != id
  {
    if xs == [] then []
    else
      var rest := RemoveId(xs[1..], id);
      assert forall e :: e in xs <==> e == xs[0] || e in xs[1..];
      if xs[0].id == id then rest else [xs[0]] + rest
  }

  /** The kept entries appear in their original order. */
  lemma {:induction false} RemoveIdSubsequence(xs: seq<Entry>, id: string)
    ensures IsSubsequence(RemoveId(xs, id), xs)
    decreases |xs|
  {
    if xs != [] {
      RemoveIdSubsequence(xs[1..], id);
      var rest := RemoveId(xs[1..], id);
      if xs[0].id != id {
        assert ([xs[0]] + rest)[1..] == rest;
      } else {
        SubsequenceSkip(rest, xs);
      }
    }
  }

  /** `filter` decides entry by entry: one entry is kept alone iff its id
      differs, and the filter of a concatenation is the concatenation of
      the filters. Together these fix every copy of a repeated entry. */
  lemma {:induction false} RemoveIdAppend(xs: seq<Entry>, ys: seq<Entry>, id: string)
    ensures forall e :: RemoveId([e], id) == if e.id == id then [] else [e]
    ensures RemoveId(xs + ys, id) == RemoveId(xs, id) + RemoveId(ys, id)
    decreases |xs|
  {
    forall e ensures RemoveId([e], id) == if e.id == id then [] else [e] {
      assert [e][1..] == [];
    }
    if xs == [] {
      assert xs + ys == ys;
    } else {
      var h := if xs[0].id == id then [] else [xs[0]];
      assert (xs + ys)[0] == xs[0] && (xs + ys)[1..] == xs[1..] + ys;
      assert RemoveId(xs + ys, id) == h + RemoveId(xs[1..] + ys, id);
      assert RemoveId(xs, id) == h + RemoveId(xs[1..], id);
      RemoveIdAppend(xs[1..], ys, id);
      Assoc(h, RemoveId(xs[1..], id), RemoveId(ys, id));
    }
  }

  /** Removing an id no entry carries changes nothing. */
  lemma {:induction false} RemoveIdOfAbsent(xs: seq<Entry>, id: string)
    requires !HasId(xs, id)
    ensures RemoveId(xs, id) == xs
    decreases |xs|
  {
    if xs != [] {
      assert xs[0].id != id;
      assert !HasId(xs[1..], id) by {
        forall i | 0 <= i < |xs[1..]| ensures xs[1..][i].id != id {
          assert xs[1..][i] == xs[i + 1];
        }
      }
      RemoveIdOfAbsent(xs[1..], id);
    }
  }

  /** Deleting twice is deleting once. */
  lemma RemoveIdIdempotent(xs: seq<Entry>, id: string)
    ensures RemoveId(RemoveId(xs, id), id) == RemoveId(xs, id)
  {
    RemoveIdOfAbsent(RemoveId(xs, id), id);
  }

  /** Deleting one id leaves the lookup of every other id as it was. */
  lemma {:induction false} FindAfterRemoveOther(xs: seq<Entry>, id: string, other: string)
    requires other != id
    ensures FindById(RemoveId(xs, id), other) == FindById(xs, other)
    decreases |xs|
  {
    if xs != [] {
      FindAfterRemoveOther(xs[1..], id, other);
      var rest := RemoveId(xs[1..], id);
      if xs[0].id != id {
        assert RemoveId(xs, id) == [xs[0]] + rest;
        assert ([xs[0]] + rest)[1..] == rest;
      }
    }
  }

  /** After an append the lookup finds the earlier match if there is one,
      else the new entry when its id matches. */
  lemma {:induction false} FindAfterAppend(xs: seq<Entry>, e: Entry, id: string)
    ensures FindById(xs + [e], id) ==
      if FindById(xs, id).Some? then FindById(xs, id)
      else if e.id == id then Some(e) else None
    decreases |xs|
  {
    if xs == [] {
      assert [] + [e] == [e];
      assert [e][1..] == [];
    } else {
      assert (xs + [e])[0] == xs[0];
      assert (xs + [e])[1..] == xs[1..] + [e];
      FindAfterAppend(xs[1..], e, id);
    }
  }

  /** The `db` object over the browser's storage key. */
  class ListStore {
    var blob: Blob

    constructor(initial: Blob)
      ensures blob == initial
    {
      blob := initial;
    }

    /** `getAll`: the stored list, or `[]` when nothing is stored or the
        blob fails to parse. */
    function GetAll(): (xs: seq<Entry>)
      reads this
      ensures blob.Present? ==> xs == blob.entries
      ensures !blob.Present? ==> xs == []
    {
      if blob.Present? then blob.entries else []
    }

    /** `getById`: the first entry with the id, if any. */
    function GetById(id: string): (r: Option<Entry>)
      reads this
      ensures r.None? <==> !HasId(GetAll(), id)
      ensures r.Some? ==>
        r.value.id == id &&
        exists i :: 0 <= i < |GetAll()| && GetAll()[i] == r.value && !HasId(GetAll()[..i], id)
    {
      FindById(GetAll(), id)
    }

    /** `save`: appends at the end and writes the list back. `writeError`
        is what `localStorage.setItem` throws, if anything: the storage
        then stays as it was and the error is re-thrown. */
    method Save(e: Entry, writeError: Option<Thrown>) returns (thrown: Option<Thrown>)
      modifies this
      ensures thrown == writeError
      ensures writeError.Some? ==> blob == old(blob)
      ensures writeError.None? ==> blob == Present(old(GetAll()) + [e])
      ensures writeError.None? ==> |GetAll()| == |old(GetAll())| + 1
      ensures writeError.None? ==> GetAll()[..|old(GetAll())|] == old(GetAll())
    {
      var entries := GetAll();
      entries := entries + [e];
      if writeError.Some? {
        return writeError;
      }
      blob := Present(entries);
      thrown := None;
    }

    /** `delete`: writes back the entries with another id, in order; a
        failing write leaves the storage as it was and is re-thrown. */
    method Delete(id: string, writeError: Option<Thrown>) returns (thrown: Option<Thrown>)
      modifies this
      ensures thrown == writeError
      ensures writeError.Some? ==> blob == old(blob)
      ensures writeError.None? ==> blob == Present(RemoveId(old(GetAll()), id))
      ensures writeError.None? ==> GetById(id) == None
    {
      var entries := RemoveId(GetAll(), id);
      if writeError.Some? {
        return writeError;
      }
      blob := Present(entries);
      thrown := None;
    }

    /** `clear`: removes the storage key. */
    method Clear()
      modifies this
      ensures blob == Absent
      ensures GetAll() == []
    {
      blob := Absent;
    }
  }
}
