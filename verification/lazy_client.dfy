/** The lazily built storage client every loader keeps: `None` until the
    first call, then built from the backend and its options and reused by
    every later call of the same instance. */
module LazyClient {
  import opened Values
  import opened Oracles

  /** The cache after a call that started with `before`: a built client is
      kept; an empty cache is filled if building succeeds and stays empty
      if it fails. */
  predicate Reuses(io: Io, backend: Value, options: Value, before: Option<Client>, after: Option<Client>)
  {
    if before.Some? then after == before
    else if io.connect(backend, options).Ok? then after == Some(io.connect(backend, options).value)
    else after == None
  }

  /** `if self.file_client is None: self.file_client = FileClient(...)`:
      the new cache and the client the call goes on with. */
  function Acquire(io: Io, cached: Option<Client>, backend: Value, options: Value)
    : (r: (Option<Client>, Result<Client, Error>))
    ensures Reuses(io, backend, options, cached, r.0)
    ensures r.1.Ok? <==> r.0.Some?
    ensures r.1.Ok? ==> r.1.value == r.0.value
    ensures r.1.Err? ==> r.1 == Err(Raised(io.connect(backend, options).error))
  {
    if cached.Some? then (cached, Ok(cached.value))
    else
      match io.connect(backend, options)
      case Ok(c) => (Some(c), Ok(c))
      case Err(f) => (None, Err(Raised(f)))
  }

  /** Once built, the cache is the same client at every later call. */
  lemma {:induction false} CacheStays(io: Io, backend: Value, options: Value, caches: seq<Option<Client>>, i: nat, j: nat)
    requires forall k :: 0 <= k < |caches| - 1 ==> Reuses(io, backend, options, caches[k], caches[k + 1])
    requires i <= j < |caches| && caches[i].Some?
    ensures caches[j] == caches[i]
    decreases j - i
  {
    if i < j {
      assert Reuses(io, backend, options, caches[i], caches[i + 1]);
      CacheStays(io, backend, options, caches, i + 1, j);
    }
  }

  /** Over any run of calls on one instance, the client is built at most
      once, and every client the run holds is the one `connect` built. */
  lemma BuiltAtMostOnce(io: Io, backend: Value, options: Value, caches: seq<Option<Client>>)
    requires forall k :: 0 <= k < |caches| - 1 ==> Reuses(io, backend, options, caches[k], caches[k + 1])
    ensures forall i, j :: 0 <= i < j < |caches| - 1 && caches[i].None? && caches[i + 1].Some? ==>
              !(caches[j].None? && caches[j + 1].Some?)
    ensures forall i, j :: 0 <= i <= j < |caches| && caches[i].Some? ==> caches[j] == caches[i]
  {
    forall i, j | 0 <= i <= j < |caches| && caches[i].Some?
      ensures caches[j] == caches[i]
    {
      CacheStays(io, backend, options, caches, i, j);
    }
  }

  /** A run that starts with no client and ever holds one holds the client
      `connect` builds. */
  lemma {:induction false} BuiltClientIsConnected(io: Io, backend: Value, options: Value, caches: seq<Option<Client>>, j: nat)
    requires forall k :: 0 <= k < |caches| - 1 ==> Reuses(io, backend, options, caches[k], caches[k + 1])
    requires |caches| > 0 && caches[0].None?
    requires j < |caches| && caches[j].Some?
    ensures io.connect(backend, options) == Ok(caches[j].value)
  {
    assert Reuses(io, backend, options, caches[j - 1], caches[j]);
    if caches[j - 1].Some? {
      BuiltClientIsConnected(io, backend, options, caches, j - 1);
    }
  }
}
