/** The browser-side certificate database: two object stores keyed by each
    record's `id`, opened once and cached. The database is modelled by the
    contents of its stores; `getAll` is a listing supplied by the caller. */
module Storage {
  import opened Common
  import Fields

  /** A stored certificate. */
  datatype CertificateRecord = CertificateRecord(
    id: string,
    certificateId: string,
    recipientName: string,
    recipientData: map<string, string>,
    templateId: string,
    createdAt: int,
    qrCode: string,
    verificationUrl: string)

  /** A stored template. */
  datatype TemplateRecord = TemplateRecord(
    id: string,
    name: string,
    fileData: string,
    fields: seq<Fields.Field>,
    createdAt: int)

  /** `all` lists every record of `store` exactly once. */
  predicate IsListing(all: seq<CertificateRecord>, store: map<string, CertificateRecord>) {
    (forall i :: 0 <= i < |all| ==> all[i].id in store && store[all[i].id] == all[i]) &&
    (forall k :: k in store ==> exists i :: 0 <= i < |all| && all[i].id == k) &&
    (forall i, j :: 0 <= i < j < |all| ==> all[i].id != all[j].id)
  }

  /** The first record of the listing whose `certificateId` is `q`. */
  function FindByCertificateId(all: seq<CertificateRecord>, q: string): (r: Option<CertificateRecord>)
    ensures r.None? <==> forall i :: 0 <= i < |all| ==> all[i].certificateId != q
    ensures r.Some? ==> r.value.certificateId == q && r.value in all
    ensures r.Some? ==> exists i :: 0 <= i < |all| && all[i] == r.value &&
                                     forall j :: 0 <= j < i ==> all[j].certificateId != q
  {
    if all == [] then None
    else if all[0].certificateId == q then assert all[0] == all[0]; Some(all[0])
    else
      var r := FindByCertificateId(all[1..], q);
      if r.Some? then
        var i :| 0 <= i < |all[1..]| && all[1..][i] == r.value && forall j :: 0 <= j < i ==> all[1..][j].certificateId != q;
        assert all[i + 1] == r.value;
        r
      else r
  }

  /** `getCertificate`: the record stored under the key `q`, otherwise the
      first listed record whose `certificateId` is `q`. */
  function Lookup(store: map<string, CertificateRecord>, all: seq<CertificateRecord>, q: string): Option<CertificateRecord> {
    if q in store then Some(store[q]) else FindByCertificateId(all, q)
  }

  /** A found record matches the query by key or by certificate id, and is
      a stored record. */
  lemma LookupSound(store: map<string, CertificateRecord>, all: seq<CertificateRecord>, q: string)
    requires forall k :: k in store ==> store[k].id == k
    requires IsListing(all, store)
    ensures var r := Lookup(store, all, q);
            r.Some? ==> (r.value.id == q || r.value.certificateId == q) && r.value.id in store && store[r.value.id] == r.value
  {
  }

  /** Whenever some stored record carries the certificate id `q`, the lookup
      finds a record. */
  lemma LookupComplete(store: map<string, CertificateRecord>, all: seq<CertificateRecord>, q: string, k: string)
    requires IsListing(all, store)
    requires k in store && store[k].certificateId == q
    ensures Lookup(store, all, q).Some?
  {
    var i :| 0 <= i < |all| && all[i].id == k;
    assert all[i] == store[k];
  }

  /** A record stored under the key `q` wins over any record whose
      certificate id is `q`. */
  lemma KeyLookupFirst(store: map<string, CertificateRecord>, all: seq<CertificateRecord>, q: string)
    requires q in store
    ensures Lookup(store, all, q) == Some(store[q])
  {
  }

  /** The opened database: the cached handle, how many times it was opened,
      and the two stores. */
  class CertificateDatabase {
    var handle: Option<nat>
    var opens: nat
    var certificates: map<string, CertificateRecord>
    var templates: map<string, TemplateRecord>

    /** Every record sits under its own `id` (key path `"id"`). */
    predicate Valid()
      reads this
    {
      (forall k :: k in certificates ==> certificates[k].id == k) &&
      (forall k :: k in templates ==> templates[k].id == k)
    }

    /** Before the first `initDB`: no handle, empty stores. */
    constructor()
      ensures Valid() && handle == None && opens == 0
      ensures certificates == map[] && templates == map[]
    {
      handle := None;
      opens := 0;
      certificates := map[];
      templates := map[];
    }

    /** `initDB`: the cached handle if there is one, otherwise the database
        is opened (`newHandle` standing for what `openDB` returns) and
        cached. */
    method InitDb(newHandle: nat) returns (h: nat)
      modifies this
      ensures old(handle).Some? ==> h == old(handle).value && handle == old(handle) && opens == old(opens)
      ensures old(handle).None? ==> h == newHandle && handle == Some(newHandle) && opens == old(opens) + 1
      ensures certificates == old(certificates) && templates == old(templates)
    {
      if handle.Some? {
        return handle.value;
      }
      handle := Some(newHandle);
      opens := opens + 1;
      h := newHandle;
    }

    /** `saveCertificate`: `put` under the record's `id`, replacing a
        record with that key and leaving the others. */
    method SaveCertificate(c: CertificateRecord, newHandle: nat)
      requires Valid()
      modifies this
      ensures Valid()
      ensures certificates == old(certificates)[c.id := c] && templates == old(templates)
      ensures handle.Some? && (old(handle).Some? ==> handle == old(handle))
    {
      var _ := InitDb(newHandle);
      certificates := certificates[c.id := c];
    }

    /** `getCertificate`: a key lookup, then a scan of the listing `all`
        (what `getAll` returns) for the first record with that certificate
        id. */
    method GetCertificate(q: string, all: seq<CertificateRecord>, newHandle: nat) returns (r: Option<CertificateRecord>)
      requires Valid() && IsListing(all, certificates)
      modifies this
      ensures r == Lookup(old(certificates), all, q)
      ensures certificates == old(certificates) && templates == old(templates)
      ensures handle.Some? && (old(handle).Some? ==> handle == old(handle))
    {
      var _ := InitDb(newHandle);
      if q in certificates {
        return Some(certificates[q]);
      }
      r := None;
      var i := 0;
      while i < |all|
        invariant 0 <= i <= |all|
        invariant forall j :: 0 <= j < i ==> all[j].certificateId != q
      {
        if all[i].certificateId == q {
          assert FindByCertificateId(all, q) == Some(all[i]) by {
            FirstMatchIsFound(all, q, i);
          }
          return Some(all[i]);
        }
        i := i + 1;
      }
    }

    /** `deleteCertificate`: removes the entry under the key `k` and no
        other, whatever the records' certificate ids. */
    method DeleteCertificate(k: string, newHandle: nat)
      requires Valid()
      modifies this
      ensures Valid()
      ensures certificates == old(certificates) - {k} && templates == old(templates)
      ensures handle.Some? && (old(handle).Some? ==> handle == old(handle))
    {
      var _ := InitDb(newHandle);
      certificates := certificates - {k};
    }

    /** `saveTemplate`: `put` under the template's `id`. */
    method SaveTemplate(t: TemplateRecord, newHandle: nat)
      requires Valid()
      modifies this
      ensures Valid()
      ensures templates == old(templates)[t.id := t] && certificates == old(certificates)
      ensures handle.Some? && (old(handle).Some? ==> handle == old(handle))
    {
      var _ := InitDb(newHandle);
      templates := templates[t.id := t];
    }

    /** `getTemplate`: the template under the key, `None` (null) when there
        is none. */
    method GetTemplate(k: string, newHandle: nat) returns (r: Option<TemplateRecord>)
      modifies this
      ensures k in old(templates) ==> r == Some(old(templates)[k])
      ensures k !in old(templates) ==> r == None
      ensures certificates == old(certificates) && templates == old(templates)
      ensures handle.Some? && (old(handle).Some? ==> handle == old(handle))
    {
      var _ := InitDb(newHandle);
      r := if k in templates then Some(templates[k]) else None;
    }
  }

  lemma FirstMatchIsFound(all: seq<CertificateRecord>, q: string, i: nat)
    requires i < |all| && all[i].certificateId == q
    requires forall j :: 0 <= j < i ==> all[j].certificateId != q
    ensures FindByCertificateId(all, q) == Some(all[i])
  {
    var r := FindByCertificateId(all, q);
    var m :| 0 <= m < |all| && all[m] == r.value && forall j :: 0 <= j < m ==> all[j].certificateId != q;
    assert all[m].certificateId == q;
  }

  /** `initDB` opens the database once: a second call returns the same
      handle without opening again. */
  method InitDbTwice(database: CertificateDatabase, first: nat, second: nat) returns (h1: nat, h2: nat)
    modifies database
    ensures h1 == h2
    ensures database.opens == old(database.opens) + (if old(database.handle).None? then 1 else 0)
  {
    h1 := database.InitDb(first);
    h2 := database.InitDb(second);
  }

  /** Saving then looking up by the record's own id gives the record back. */
  method SaveThenGet(database: CertificateDatabase, c: CertificateRecord, all: seq<CertificateRecord>, h: nat)
    returns (r: Option<CertificateRecord>)
    requires database.Valid()
    requires IsListing(all, database.certificates[c.id := c])
    modifies database
    ensures r == Some(c)
  {
    database.SaveCertificate(c, h);
    r := database.GetCertificate(c.id, all, h);
  }
}
