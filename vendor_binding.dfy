/** The lazy binding to the vendor library, as a state machine over the two
    process-wide statics: the library handle and the address of its
    GetLiveViewImage routine. The loader, the symbol lookup and the vendor
    routine are not modelled; what each returns on a given call is an input. */
module VendorBinding {
  import opened CrTypes

  /** The statics hSonyDll and pGetLiveViewImage. */
  datatype Cache = Cache(hSonyDll: Address, pGetLiveViewImage: Address)

  const Unbound: Cache := Cache(NULL, NULL)

  /** A routine address is only ever stored under a loaded library. */
  predicate Valid(c: Cache) {
    c.hSonyDll == NULL ==> c.pGetLiveViewImage == NULL
  }

  /** What the operating system answers on one call, if asked:
      LoadLibraryA's handle and GetProcAddress's address (NULL on failure). */
  datatype Loader = Loader(loadLibrary: Address, getProcAddress: Address)

  /** What the vendor routine does when it is called: its return code and
      the values it writes into the block's frameNo, imageSize and timeCode. */
  datatype VendorReply = VendorReply(code: CrError, frameNo: U32, imageSize: U32, timeCode: U32)

  /** One call of GetLiveViewImageHelper with everything it depends on. */
  datatype Call = Call(deviceHandle: Address, hasBlock: bool, os: Loader, reply: VendorReply)

  /** The effect of one call: the statics afterwards, the code returned,
      whether the library load was attempted and whether the vendor routine ran. */
  datatype Outcome = Outcome(cache: Cache, code: CrError, loadTried: bool, vendorCalled: bool)

  /** One call of GetLiveViewImageHelper, following its branches in order. */
  function Step(c: Cache, call: Call): (o: Outcome)
    requires Valid(c)
    ensures Valid(o.cache)
    // the load is attempted exactly when no library is cached
    ensures o.loadTried <==> c.hSonyDll == NULL
    // a cached library handle, and whatever address was looked up with it, stay as they are
    ensures c.hSonyDll != NULL ==> o.cache == c
    // a failed load caches nothing, so the next call loads again
    ensures c.hSonyDll == NULL && call.os.loadLibrary == NULL ==> o.cache == Unbound && o.code == CrErrorGeneric
    // a successful load caches the handle and the looked-up address, found or not
    ensures c.hSonyDll == NULL && call.os.loadLibrary != NULL ==>
      o.cache == Cache(call.os.loadLibrary, call.os.getProcAddress)
    // the vendor runs only with both arguments and a bound routine
    ensures o.vendorCalled <==>
      call.deviceHandle != NULL && call.hasBlock && o.cache.pGetLiveViewImage != NULL
    // its code is passed through unchanged; every other path returns the generic code
    ensures o.code == if o.vendorCalled then call.reply.code else CrErrorGeneric
  {
    if c.hSonyDll == NULL && call.os.loadLibrary == NULL then
      Outcome(c, CrErrorGeneric, true, false)
    else if c.hSonyDll == NULL && call.os.getProcAddress == NULL then
      Outcome(Cache(call.os.loadLibrary, NULL), CrErrorGeneric, true, false)
    else
      var cache := if c.hSonyDll == NULL then Cache(call.os.loadLibrary, call.os.getProcAddress) else c;
      if call.deviceHandle != NULL && call.hasBlock && cache.pGetLiveViewImage != NULL then
        Outcome(cache, call.reply.code, c.hSonyDll == NULL, true)
      else
        Outcome(cache, CrErrorGeneric, c.hSonyDll == NULL, false)
  }

  /** The statics in force just before call i of a run from c. */
  function Before(c: Cache, run: seq<Outcome>, i: nat): Cache
    requires i <= |run|
  {
    if i == 0 then c else run[i - 1].cache
  }

  /** A sequence of calls made one after another from the statics c. */
  function Run(c: Cache, calls: seq<Call>): (run: seq<Outcome>)
    requires Valid(c)
    ensures |run| == |calls|
    ensures forall i :: 0 <= i < |run| ==> Valid(run[i].cache)
    ensures forall i :: 0 <= i < |run| ==> run[i] == Step(Before(c, run, i), calls[i])
    decreases |calls|
  {
    if calls == [] then []
    else
      var o := Step(c, calls[0]);
      [o] + Run(o.cache, calls[1..])
  }

  /** Once a library handle is cached, no later call loads again or changes either static. */
  lemma {:induction false} CachedHandleIsKept(c: Cache, calls: seq<Call>)
    requires Valid(c) && c.hSonyDll != NULL
    decreases |calls|
    ensures forall i :: 0 <= i < |calls| ==> !Run(c, calls)[i].loadTried && Run(c, calls)[i].cache == c
  {
    if calls != [] {
      CachedHandleIsKept(c, calls[1..]);
    }
  }

  /** In any run, after the first call that ends with a library cached, the
      library is never loaded again: the load succeeds at most once. */
  lemma {:induction false} LoadedAtMostOnce(c: Cache, calls: seq<Call>)
    requires Valid(c)
    decreases |calls|
    ensures forall i, j :: 0 <= i < j < |calls| && Run(c, calls)[i].cache.hSonyDll != NULL ==>
      !Run(c, calls)[j].loadTried && Run(c, calls)[j].cache == Run(c, calls)[i].cache
  {
    if calls != [] {
      var run := Run(c, calls);
      var o := run[0];
      assert run[1..] == Run(o.cache, calls[1..]);
      LoadedAtMostOnce(o.cache, calls[1..]);
      if o.cache.hSonyDll != NULL {
        CachedHandleIsKept(o.cache, calls[1..]);
      }
      forall i, j | 0 <= i < j < |calls| && run[i].cache.hSonyDll != NULL
        ensures !run[j].loadTried && run[j].cache == run[i].cache
      {
        if i > 0 {
          assert run[i] == run[1..][i - 1] && run[j] == run[1..][j - 1];
        } else {
          assert run[j] == run[1..][j - 1];
        }
      }
    }
  }

  /** A library that loaded without the routine stays that way: every later
      call returns the generic code without reaching the vendor. */
  lemma {:induction false} MissingSymbolIsFinal(c: Cache, calls: seq<Call>)
    requires Valid(c) && c.hSonyDll != NULL && c.pGetLiveViewImage == NULL
    ensures forall i :: 0 <= i < |calls| ==>
      Run(c, calls)[i].code == CrErrorGeneric && !Run(c, calls)[i].vendorCalled
  {
    CachedHandleIsKept(c, calls);
  }

  /** While the library keeps failing to load, every call tries it again,
      returns the generic code and leaves nothing cached. */
  lemma {:induction false} FailedLoadsAreRetried(calls: seq<Call>)
    requires forall i :: 0 <= i < |calls| ==> calls[i].os.loadLibrary == NULL
    ensures forall i :: 0 <= i < |calls| ==>
      Run(Unbound, calls)[i].loadTried && Run(Unbound, calls)[i].cache == Unbound &&
      Run(Unbound, calls)[i].code == CrErrorGeneric
  {
    if calls != [] {
      FailedLoadsAreRetried(calls[1..]);
      var run := Run(Unbound, calls);
      assert run[1..] == Run(Unbound, calls[1..]);
      forall i | 0 < i < |calls|
        ensures run[i] == Run(Unbound, calls[1..])[i - 1]
      {
      }
    }
  }

  /** After any number of failed loads, the first call on which the library
      and its routine are found reaches the vendor and returns its code. */
  lemma {:induction false} BindsOnceLibraryAppears(failures: seq<Call>, call: Call)
    requires forall i :: 0 <= i < |failures| ==> failures[i].os.loadLibrary == NULL
    requires call.os.loadLibrary != NULL && call.os.getProcAddress != NULL
    requires call.deviceHandle != NULL && call.hasBlock
    ensures Run(Unbound, failures + [call])[|failures|].vendorCalled
    ensures Run(Unbound, failures + [call])[|failures|].code == call.reply.code
  {
    var calls := failures + [call];
    var run := Run(Unbound, calls);
    FailedLoadsAreRetried(failures);
    assert calls[..|failures|] == failures;
    RunPrefix(Unbound, calls, |failures|);
    if failures != [] {
      assert Before(Unbound, run, |failures|) == Run(Unbound, failures)[|failures| - 1].cache;
    }
    assert calls[|failures|] == call;
  }

  /** A run's first k outcomes are the run of its first k calls. */
  lemma {:induction false} RunPrefix(c: Cache, calls: seq<Call>, k: nat)
    requires Valid(c) && k <= |calls|
    decreases k
    ensures Run(c, calls)[..k] == Run(c, calls[..k])
  {
    if k > 0 {
      var o := Step(c, calls[0]);
      assert calls[..k][1..] == calls[1..][..k - 1];
      RunPrefix(o.cache, calls[1..], k - 1);
    }
  }
}
