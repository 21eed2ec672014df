/** The domain-keyed analysis store: one record per `GetDomain(url)`,
    kept as one JSON object under a single storage key. The stored blob
    is a field of `DomainStore`; a blob that does not parse reads as
    the empty map. */
module DomainDb {
  import opened Js
  import opened AnalysisSchema
  import opened StringUtils
  import opened Collections

  /** What the storage key holds: nothing, text that is not valid JSON,
      or a parsed domain-to-record object. */
  datatype Blob = Absent | Corrupt | Present(records: map<string, Analysis>)

  /** The map `getAll` returns for a blob. */
  function Records(b: Blob): (m: map<string, Analysis>)
    ensures b.Present? ==> m == b.records
    ensures !b.Present? ==> m == map[]
  {
    if b.Present? then b.records else map[]
  }

  /** The record `save` writes for `url`: the incoming analysis with
      `url` put in front of its sources (de-duplicated), `updated_at`
      set to `now`, and `created_at` set to `now` only for a new domain. */
  function SavedRecord(all: map<string, Analysis>, url: string, a: Analysis, now: string): (r: Analysis)
    ensures r.updated_at == Some(now)
    ensures GetDomain(url) !in all ==> r.created_at == Some(now)
    ensures GetDomain(url) in all ==> r.created_at == a.created_at
    ensures r.problem == a.problem && r.solution == a.solution
    ensures r.product_type == a.product_type && r.sector == a.sector && r.subsector == a.subsector
    ensures r.active_locations == a.active_locations && r.competition == a.competition
  {
    var saved := a.(sources := Dedup([url] + a.sources));
    if GetDomain(url) in all then saved.(updated_at := Some(now))
    else saved.(created_at := Some(now), updated_at := Some(now))
  }

  /** The map `save` writes back. */
  function SaveInto(all: map<string, Analysis>, url: string, a: Analysis, now: string): (m: map<string, Analysis>)
    ensures GetDomain(url) in m && m[GetDomain(url)] == SavedRecord(all, url, a, now)
    ensures m.Keys == all.Keys + {GetDomain(url)}
    ensures forall d :: d in all && d != GetDomain(url) ==> m[d] == all[d]
  {
    all[GetDomain(url) := SavedRecord(all, url, a, now)]
  }

  /** The map `delete` writes back. */
  function DeleteFrom(all: map<string, Analysis>, url: string): (m: map<string, Analysis>)
    ensures GetDomain(url) !in m
    ensures m.Keys == all.Keys - {GetDomain(url)}
    ensures forall d :: d in m ==> m[d] == all[d]
  {
    all - {GetDomain(url)}
  }

  /** The lookup `getByUrl` performs on a map. */
  function Lookup(all: map<string, Analysis>, url: string): (r: Option<Analysis>)
    ensures r.Some? <==> GetDomain(url) in all
    ensures r.Some? ==> r.value == all[GetDomain(url)]
  {
    if GetDomain(url) in all then Some(all[GetDomain(url)]) else None
  }

  /** URLs that differ in the scheme, a leading "www.", the path or the
      case of the host address the same record. */
  lemma SameDomainSameRecord(all: map<string, Analysis>,
                             scheme1: string, www1: string, path1: string,
                             scheme2: string, www2: string, path2: string,
                             host1: string, host2: string)
    requires scheme1 == "" || scheme1 == "http://" || scheme1 == "https://"
    requires scheme2 == "" || scheme2 == "http://" || scheme2 == "https://"
    requires www1 == "" || www1 == "www."
    requires www2 == "" || www2 == "www."
    requires ':' !in host1 && '/' !in host1 && !StartsWith(host1, "www.")
    requires ':' !in host2 && '/' !in host2 && !StartsWith(host2, "www.")
    requires path1 == [] || path1[0] == '/'
    requires path2 == [] || path2[0] == '/'
    requires ToLower(host1) == ToLower(host2)
    ensures Lookup(all, scheme1 + www1 + host1 + path1) == Lookup(all, scheme2 + www2 + host2 + path2)
  {
    GetDomainOfParts(scheme1, www1, host1, path1);
    GetDomainOfParts(scheme2, www2, host2, path2);
  }

  /** The saved sources begin with the URL, hold no duplicates, hold
      exactly the URL and the incoming sources, and list the incoming
      sources other than the URL in the order of their first occurrence. */
  lemma SavedSources(all: map<string, Analysis>, url: string, a: Analysis, now: string)
    ensures var s := SavedRecord(all, url, a, now).sources;
      s != [] && s[0] == url && NoDups(s) &&
      (forall x :: x in s <==> x == url || x in a.sources) &&
      s[1..] == DedupFrom(a.sources, {url}) &&
      InFirstOrder(s[1..], a.sources)
  {
    DedupHead(url, a.sources);
    DedupFromOrder(a.sources, {url});
    var s := SavedRecord(all, url, a, now).sources;
    assert s == [url] + DedupFrom(a.sources, {url});
    assert s[1..] == DedupFrom(a.sources, {url});
  }

  /** The `db` object over the browser's storage key. */
  class DomainStore {
    var blob: Blob

    constructor(initial: Blob)
      ensures blob == initial
    {
      blob := initial;
    }

    /** `getAll`: the stored map, or the empty map when nothing is stored
        or the blob fails to parse. */
    function GetAll(): (m: map<string, Analysis>)
      reads this
      ensures blob.Present? ==> m == blob.records
      ensures !blob.Present? ==> m == map[]
    {
      Records(blob)
    }

    /** `getByUrl`: the record of the URL's domain, if any. */
    function GetByUrl(url: string): (r: Option<Analysis>)
      reads this
      ensures r.Some? <==> GetDomain(url) in GetAll()
      ensures r.Some? ==> r.value == GetAll()[GetDomain(url)]
    {
      Lookup(GetAll(), url)
    }

    /** `exists`: whether the URL's domain has a record. */
    function Exists(url: string): (b: bool)
      reads this
      ensures b <==> GetByUrl(url).Some?
    {
      GetDomain(url) in GetAll()
    }

    /** `save`: writes the whole map back with the URL's record set.
        `writeError` is what `localStorage.setItem` throws, if anything:
        the storage then stays as it was and the error is re-thrown. */
    method Save(url: string, a: Analysis, now: string, writeError: Option<Thrown>) returns (thrown: Option<Thrown>)
      modifies this
      ensures thrown == writeError
      ensures writeError.Some? ==> blob == old(blob)
      ensures writeError.None? ==> blob == Present(SaveInto(old(GetAll()), url, a, now))
      ensures writeError.None? ==> Exists(url) && GetByUrl(url) == Some(SavedRecord(old(GetAll()), url, a, now))
      ensures writeError.None? ==>
        forall other :: GetDomain(other) != GetDomain(url) ==> GetByUrl(other) == old(GetByUrl(other))
    {
      var all := GetAll();
      var record := SavedRecord(all, url, a, now);
      all := all[GetDomain(url) := record];
      if writeError.Some? {
        return writeError;
      }
      blob := Present(all);
      thrown := None;
    }

    /** `delete`: writes the map back without the URL's domain; a failing
        write leaves the storage as it was and is re-thrown. */
    method Delete(url: string, writeError: Option<Thrown>) returns (thrown: Option<Thrown>)
      modifies this
      ensures thrown == writeError
      ensures writeError.Some? ==> blob == old(blob)
      ensures writeError.None? ==> blob == Present(DeleteFrom(old(GetAll()), url))
      ensures writeError.None? ==> !Exists(url)
      ensures writeError.None? ==>
        forall other :: GetDomain(other) != GetDomain(url) ==> GetByUrl(other) == old(GetByUrl(other))
    {
      var all := GetAll();
      all := all - {GetDomain(url)};
      if writeError.Some? {
        return writeError;
      }
      blob := Present(all);
      thrown := None;
    }

    /** `clear`: removes the storage key. */
    method Clear()
      modifies this
      ensures blob == Absent
      ensures GetAll() == map[]
    {
      blob := Absent;
    }
  }
}
