/** The two blob stores: URI-keyed memory, and an S3 bucket keyed by object key. */
module Blobs {
  import opened Wrappers

  datatype Backend = Memory | S3(bucket: string)

  /** Contents are kept as the runes a reader decodes. */
  type Objects = map<string, string>

  function ObjectKey(tenant: string, filename: string): string {
    tenant + "/" + filename
  }

  function Prefix(b: Backend): string {
    match b
    case Memory => "memory://"
    case S3(bucket) => "s3://" + bucket + "/"
  }

  function Uri(b: Backend, tenant: string, filename: string): string {
    Prefix(b) + ObjectKey(tenant, filename)
  }

  /** The key under which a backend keeps the object that a URI names; S3 slices off its prefix unread. */
  function KeyOf(b: Backend, uri: string): Option<string> {
    match b
    case Memory => Some(uri)
    case S3(_) => if |uri| <= |Prefix(b)| then None else Some(uri[|Prefix(b)|..])
  }

  function StorageKey(b: Backend, tenant: string, filename: string): string {
    match b
    case Memory => Uri(b, tenant, filename)
    case S3(_) => ObjectKey(tenant, filename)
  }

  function Uploaded(b: Backend, objects: Objects, tenant: string, filename: string, content: string): Objects {
    objects[StorageKey(b, tenant, filename) := content]
  }

  function Download(b: Backend, objects: Objects, uri: string): Option<string> {
    var key := KeyOf(b, uri);
    if key.Some? && key.value in objects then Some(objects[key.value]) else None
  }

  class MemoryStorage {
    var store: Objects

    constructor ()
      ensures store == map[]
    {
      store := map[];
    }

    method Upload(tenant: string, filename: string, content: string) returns (uri: string)
      modifies this
      ensures uri == Uri(Memory, tenant, filename)
      ensures store == Uploaded(Memory, old(store), tenant, filename, content)
    {
      uri := "memory://" + (tenant + "/" + filename);
      store := store[uri := content];
    }

    method Get(uri: string) returns (content: Option<string>)
      ensures content == Download(Memory, store, uri)
    {
      if uri !in store {
        return None;
      }
      return Some(store[uri]);
    }
  }

  /** The adapter over a bucket seen as a map; `up` is the service's answer. */
  class S3Adapter {
    const bucket: string
    var objects: Objects

    constructor (bucket: string)
      ensures this.bucket == bucket && objects == map[]
    {
      this.bucket := bucket;
      objects := map[];
    }

    method Upload(tenant: string, filename: string, content: string, up: bool) returns (uri: Option<string>)
      modifies this
      ensures uri == if up then Some(Uri(S3(bucket), tenant, filename)) else None
      ensures objects == if up then Uploaded(S3(bucket), old(objects), tenant, filename, content) else old(objects)
    {
      var objectKey := tenant + "/" + filename;
      if !up {
        return None;
      }
      objects := objects[objectKey := content];
      return Some("s3://" + bucket + "/" + objectKey);
    }

    method Get(uri: string, up: bool) returns (content: Option<string>)
      ensures content == if up then Download(S3(bucket), objects, uri) else None
    {
      var prefix := "s3://" + bucket + "/";
      if |uri| <= |prefix| {
        return None;
      }
      var objectKey := uri[|prefix|..];
      if !up || objectKey !in objects {
        return None;
      }
      return Some(objects[objectKey]);
    }
  }

  lemma KeyOfUri(b: Backend, tenant: string, filename: string)
    ensures KeyOf(b, Uri(b, tenant, filename)) == Some(StorageKey(b, tenant, filename))
    ensures Uri(b, tenant, filename) != ""
  {
    var key := ObjectKey(tenant, filename);
    assert |key| == |tenant| + 1 + |filename|;
    assert (Prefix(b) + key)[|Prefix(b)|..] == key;
  }

  /** Two uploads share a slot exactly when they share a URI. */
  lemma SameSlotSameUri(b: Backend, t1: string, f1: string, t2: string, f2: string)
    ensures StorageKey(b, t1, f1) == StorageKey(b, t2, f2) <==> Uri(b, t1, f1) == Uri(b, t2, f2)
  {
    KeyOfUri(b, t1, f1);
    KeyOfUri(b, t2, f2);
  }

  /** On either backend, a download inverts the latest upload under its URI and no other upload is disturbed. */
  lemma DownloadAfterUpload(b: Backend, objects: Objects, tenant: string, filename: string, content: string,
                            t: string, f: string)
    ensures Download(b, Uploaded(b, objects, tenant, filename, content), Uri(b, t, f)) ==
            if Uri(b, t, f) == Uri(b, tenant, filename) then Some(content) else Download(b, objects, Uri(b, t, f))
  {
    KeyOfUri(b, t, f);
    SameSlotSameUri(b, t, f, tenant, filename);
  }

  /** Neither tenant ID, followed by a slash, begins the other. */
  predicate Apart(t: string, u: string) {
    !(t + "/" <= u) && !(u + "/" <= t)
  }

  lemma BeginsWithSlash(t: string, u: string)
    requires t + "/" <= u
    ensures '/' in u
  {
    assert u[|t|] == '/';
  }

  /** Tenant IDs without a slash are apart. */
  lemma NoSlashApart(t: string, u: string)
    requires '/' !in t && '/' !in u
    ensures Apart(t, u)
  {
    if t + "/" <= u { BeginsWithSlash(t, u); }
    if u + "/" <= t { BeginsWithSlash(u, t); }
  }

  lemma ShorterTenantBegins(t: string, f: string, u: string, g: string)
    requires |t| < |u| && ObjectKey(t, f) == ObjectKey(u, g)
    ensures t + "/" <= u
  {
    var k := ObjectKey(t, f);
    assert k[..|t|] == t && k[|t|] == '/' && k[..|u|] == u;
    assert u[..|t|] == t && u[|t|] == '/';
    assert t + "/" == u[..|t| + 1];
  }

  lemma KeyDeterminesTenant(t: string, f: string, u: string, g: string)
    requires |t| <= |u| && !(t + "/" <= u) && ObjectKey(t, f) == ObjectKey(u, g)
    ensures t == u && f == g
  {
    if |t| < |u| {
      ShorterTenantBegins(t, f, u, g);
    } else {
      var k := ObjectKey(t, f);
      assert k[..|t|] == t && k[..|u|] == u;
      assert k[|t| + 1..] == f && k[|u| + 1..] == g;
    }
  }

  lemma UriDeterminesTenant(b: Backend, t: string, f: string, u: string, g: string)
    requires Apart(t, u) && Uri(b, t, f) == Uri(b, u, g)
    ensures t == u && f == g
  {
    assert Uri(b, t, f)[|Prefix(b)|..] == ObjectKey(t, f);
    assert Uri(b, u, g)[|Prefix(b)|..] == ObjectKey(u, g);
    if |t| <= |u| {
      KeyDeterminesTenant(t, f, u, g);
    } else {
      KeyDeterminesTenant(u, g, t, f);
    }
  }

  lemma NestedTenantsCollide(b: Backend, t: string, u: string) returns (f: string, g: string)
    requires t + "/" <= u
    ensures Uri(b, t, f) == Uri(b, u, g)
  {
    var rest := u[|t| + 1..];
    f, g := rest + "/x", "x";
    assert u == t + "/" + rest;
    assert ObjectKey(t, f) == ObjectKey(u, g);
  }

  /** Two tenants can reach the same URI, one overwriting the other's blob, exactly when they are not apart. */
  lemma TenantsCollideIff(b: Backend, t: string, u: string)
    requires t != u
    ensures (exists f, g :: Uri(b, t, f) == Uri(b, u, g)) <==> !Apart(t, u)
  {
    if Apart(t, u) {
      forall f, g ensures Uri(b, t, f) != Uri(b, u, g) {
        if Uri(b, t, f) == Uri(b, u, g) {
          UriDeterminesTenant(b, t, f, u, g);
        }
      }
    } else if t + "/" <= u {
      var f, g := NestedTenantsCollide(b, t, u);
    } else {
      var g, f := NestedTenantsCollide(b, u, t);
      assert Uri(b, t, f) == Uri(b, u, g);
    }
  }

  /** The bucket's adapter reads only the length of a URI's prefix: whatever stands there, the key is what follows. */
  lemma PrefixUnread(bucket: string, objects: Objects, prefix: string, key: string)
    requires |prefix| == |"s3://"| + |bucket| + 1
    ensures Download(S3(bucket), objects, prefix + key) ==
            if key in objects && key != "" then Some(objects[key]) else None
  {
    assert |Prefix(S3(bucket))| == |prefix|;
    assert (prefix + key)[|prefix|..] == key;
  }
}
