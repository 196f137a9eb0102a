/**
 * The location provider that picks, once, the first available location backend
 * (fused before standard) and forwards every request to it.
 *
 * The platform is abstracted: each adapter is a record whose availability is
 * fixed, the pending-intent registry is the set of request codes that currently
 * have a pending intent, and every call the provider makes on an adapter, other
 * than reading its request code, is appended to a trace.
 */
module LocationProvider {
  import opened Wrappers

  /**
   * A location backend: its identity, whether it reports itself available, its
   * reserved request code, and whether its own cancel also cancels the pending
   * intent it is handed (which removes that code from the registry).
   */
  datatype Adapter = Adapter(id: nat, available: bool, requestCode: int, releasesOnCancel: bool)

  /** A call the provider makes on an adapter; `O` is the opaque request-options type, passed through unchanged. */
  datatype Event<O> =
    | IsAvailable(target: Adapter)
    | CancelUpdates(target: Adapter)
    | RequestUpdates(target: Adapter, options: O)
    | RequestSingle(target: Adapter, options: O)
    | ProvidersChanged(target: Adapter, options: O)

  /** The cancelable handle an adapter returns for a single-location request; `ticket` is the position of that request in the trace. */
  datatype PendingResult = PendingResult(source: Adapter, ticket: nat)

  /** The position of the first adapter that reports available, None when there is none. */
  function FirstAvailable(s: seq<Adapter>): (r: Option<nat>)
    ensures r.Some? ==> r.value < |s| && s[r.value].available
    ensures r.None? && s != [] ==> !s[|s| - 1].available
  {
    if s == [] then None
    else match FirstAvailable(s[..|s| - 1])
      case Some(i) => Some(i)
      case None => if s[|s| - 1].available then Some(|s| - 1) else None
  }

  /** The selection really is the first available adapter, and it is None exactly when no adapter is available. */
  lemma {:induction false} FirstAvailableIsFirst(s: seq<Adapter>)
    ensures FirstAvailable(s).None? <==> forall j :: 0 <= j < |s| ==> !s[j].available
    ensures FirstAvailable(s).Some? ==> forall j :: 0 <= j < FirstAvailable(s).value ==> !s[j].available
  {
    if s != [] {
      var init := s[..|s| - 1];
      FirstAvailableIsFirst(init);
      assert forall j :: 0 <= j < |init| ==> init[j] == s[j];
    }
  }

  /** The registry after a provider-side cancel on `a`: looked up without creating, then released if `a` releases it. */
  function AfterCancel(a: Adapter, pending: set<int>): set<int>
  {
    if a.requestCode in pending && a.releasesOnCancel then pending - {a.requestCode} else pending
  }

  /** Whether adapter `a`, met by the scan, takes code `c` out of the registry when it is pending. */
  predicate ReleasedBy(a: Adapter, c: int)
  {
    a.available && a.releasesOnCancel && a.requestCode == c
  }

  /** The registry after the scan over `s`: each available adapter's cancel acts on the registry as the earlier ones left it. */
  function ScanPending(s: seq<Adapter>, pending: set<int>): set<int>
  {
    if s == [] then pending
    else
      var before := ScanPending(s[..|s| - 1], pending);
      if s[|s| - 1].available then AfterCancel(s[|s| - 1], before) else before
  }

  /** The calls one adapter receives during the scan: an availability check, then a cancel if it is available and has a pending intent. */
  function AdapterScan<O>(a: Adapter, pending: set<int>): seq<Event<O>>
  {
    [IsAvailable(a)] + if a.available && a.requestCode in pending then [CancelUpdates(a)] else []
  }

  /** The calls of a whole scan over `s`, in list order. */
  function ScanTrace<O>(s: seq<Adapter>, pending: set<int>): seq<Event<O>>
  {
    if s == [] then [] else ScanTrace(s[..|s| - 1], pending) + AdapterScan(s[|s| - 1], ScanPending(s[..|s| - 1], pending))
  }

  /**
   * The scan never adds a code, and a code survives it exactly when it was
   * pending and no available adapter that releases on cancel owns it.
   */
  lemma {:induction false} ScanPendingReleases(s: seq<Adapter>, pending: set<int>, c: int)
    ensures ScanPending(s, pending) <= pending
    ensures c in ScanPending(s, pending) <==> c in pending && forall j :: 0 <= j < |s| ==> !ReleasedBy(s[j], c)
  {
    if s != [] {
      var init := s[..|s| - 1];
      ScanPendingReleases(init, pending, c);
      assert forall j :: 0 <= j < |init| ==> init[j] == s[j];
    }
  }

  /** The adapters asked for their availability in trace `t`, in order. */
  function Checked<O>(t: seq<Event<O>>): seq<Adapter>
  {
    if t == [] then [] else (if t[0].IsAvailable? then [t[0].target] else []) + Checked(t[1..])
  }

  lemma {:induction false} CheckedAppend<O>(t: seq<Event<O>>, u: seq<Event<O>>)
    ensures Checked(t + u) == Checked(t) + Checked(u)
  {
    if t == [] {
      assert t + u == u;
    } else {
      assert (t + u)[1..] == t[1..] + u;
      CheckedAppend(t[1..], u);
    }
  }

  /** The scan asks every adapter, once and in list order, whether it is available. */
  lemma {:induction false} ScanChecksEveryAdapter<O>(s: seq<Adapter>, pending: set<int>)
    ensures Checked(ScanTrace<O>(s, pending)) == s
  {
    if s != [] {
      var a := s[|s| - 1];
      var init := s[..|s| - 1];
      ScanChecksEveryAdapter<O>(init, pending);
      var tail := AdapterScan<O>(a, ScanPending(init, pending));
      CheckedAppend(ScanTrace<O>(init, pending), tail);
      var rest := tail[1..];
      assert rest == [] || rest == [CancelUpdates(a)];
      assert Checked(rest) == [] by {
        if rest != [] { assert rest[1..] == []; }
      }
      assert Checked(tail) == [a] + Checked(rest);
      assert s == init + [a];
    }
  }

  /**
   * Beyond availability checks the scan only cancels, and it cancels an adapter
   * exactly where it is met available while its code is still pending.
   */
  lemma {:induction false} ScanCancelsStale<O>(s: seq<Adapter>, pending: set<int>, e: Event<O>)
    ensures e in ScanTrace<O>(s, pending) ==> e.IsAvailable? || e.CancelUpdates?
    ensures e.CancelUpdates? ==>
      (e in ScanTrace<O>(s, pending) <==>
        exists j :: 0 <= j < |s| && s[j] == e.target && e.target.available
          && e.target.requestCode in ScanPending(s[..j], pending))
  {
    if s != [] {
      var init := s[..|s| - 1];
      ScanCancelsStale(init, pending, e);
      assert forall j :: 0 <= j < |init| ==> init[j] == s[j] && init[..j] == s[..j];
      assert s[..|init|] == init;
    }
  }

  /** No two adapters share a request code, as the fused and the standard backend reserve different ones. */
  ghost predicate DistinctCodes(s: seq<Adapter>)
  {
    forall i, j :: 0 <= i < j < |s| ==> s[i].requestCode != s[j].requestCode
  }

  /**
   * With distinct request codes, the scan cancels exactly the available adapters
   * whose code was pending before it started, whether selected or not.
   */
  lemma ScanCancelsEveryStaleAdapter<O>(s: seq<Adapter>, pending: set<int>, a: Adapter)
    requires DistinctCodes(s)
    ensures CancelUpdates(a) in ScanTrace<O>(s, pending) <==> a in s && a.available && a.requestCode in pending
  {
    ScanCancelsStale<O>(s, pending, CancelUpdates(a));
    if a in s && a.available && a.requestCode in pending {
      var j :| 0 <= j < |s| && s[j] == a;
      ScanPendingReleases(s[..j], pending, a.requestCode);
    } else if CancelUpdates(a) in ScanTrace<O>(s, pending) {
      var j :| 0 <= j < |s| && s[j] == a && a.requestCode in ScanPending(s[..j], pending);
      ScanPendingReleases(s[..j], pending, a.requestCode);
    }
  }

  /** Only available adapters receive calls other than the availability check. */
  lemma ScanLeavesUnavailableAlone<O>(s: seq<Adapter>, pending: set<int>, e: Event<O>)
    requires e in ScanTrace<O>(s, pending) && !e.target.available
    ensures e == IsAvailable(e.target)
  {
    ScanCancelsStale(s, pending, e);
  }

  /**
   * `UALocationProvider`, built with an explicit adapter list.
   * `pending` and `trace` stand for the platform the provider talks to.
   */
  class UALocationProvider<O> {
    const adapters: seq<Adapter>
    /** The position in `adapters` of the adapter in use (the source's `availableAdapter`). */
    var selected: Option<nat>
    var isConnected: bool
    /** Request codes that currently have a pending intent on the platform. */
    var pending: set<int>
    /** Every call made on an adapter so far, other than reading its request code. */
    var trace: seq<Event<O>>

    /** Nothing is selected before the scan; afterwards the selection is the scan's answer. */
    ghost predicate Valid()
      reads this
    {
      if isConnected then selected == FirstAvailable(adapters) else selected.None?
    }

    /** The adapter in use. */
    ghost function Current(): Adapter
      reads this
      requires Valid() && selected.Some?
    {
      adapters[selected.value]
    }

    /** The calls the next `Connect` makes: a full scan when not yet connected, none afterwards. */
    ghost function ConnectTrace(): seq<Event<O>>
      reads this
    {
      if isConnected then [] else ScanTrace(adapters, pending)
    }

    /** The registry after the next `Connect`. */
    ghost function ConnectPending(): set<int>
      reads this
    {
      if isConnected then pending else ScanPending(adapters, pending)
    }

    /** The test constructor with explicit adapters; `pending` is what earlier runs of the app left on the platform. */
    constructor (adapters: seq<Adapter>, pending: set<int>)
      ensures Valid() && !isConnected && selected.None?
      ensures this.adapters == adapters && this.pending == pending && trace == []
    {
      this.adapters := adapters;
      this.pending := pending;
      selected := None;
      isConnected := false;
      trace := [];
    }

    /**
     * `connect()`: a one-shot scan that selects the first available adapter and
     * cancels stale pending requests on every available adapter.
     */
    method Connect()
      requires Valid()
      modifies this
      ensures Valid() && isConnected && selected == FirstAvailable(adapters)
      ensures old(isConnected) ==> selected == old(selected) && trace == old(trace) && pending == old(pending)
      ensures trace == old(trace) + old(ConnectTrace())
      ensures pending == old(ConnectPending()) && pending <= old(pending)
    {
      if isConnected {
        return;
      }
      ghost var start := pending;
      for i := 0 to |adapters|
        invariant selected == FirstAvailable(adapters[..i])
        invariant trace == old(trace) + ScanTrace(adapters[..i], start)
        invariant pending == ScanPending(adapters[..i], start) && !isConnected
      {
        var adapter := adapters[i];
        assert adapters[..i + 1][..i] == adapters[..i];
        trace := trace + [IsAvailable(adapter)];
        if adapter.available {
          if selected.None? {
            selected := Some(i);
          }
          if adapter.requestCode in pending {
            trace := trace + [CancelUpdates(adapter)];
            if adapter.releasesOnCancel {
              pending := pending - {adapter.requestCode};
            }
          }
        }
      }
      assert adapters[..|adapters|] == adapters;
      ScanPendingReleases(adapters, start, 0);
      isConnected := true;
    }

    /** `cancelRequests()`: cancels the adapter in use, but only if an intent is already pending for its code. */
    method CancelRequests()
      requires Valid()
      modifies this
      ensures Valid() && isConnected
      ensures pending <= old(pending)
      ensures pending == if selected.Some? then AfterCancel(Current(), old(ConnectPending())) else old(ConnectPending())
      ensures selected.Some? && Current().releasesOnCancel ==> Current().requestCode !in pending
      ensures trace == old(trace) + old(ConnectTrace()) +
        if selected.Some? && Current().requestCode in old(ConnectPending()) then [CancelUpdates(Current())] else []
    {
      Connect();
      if selected.None? {
        return;
      }
      var adapter := adapters[selected.value];
      if adapter.requestCode in pending {
        trace := trace + [CancelUpdates(adapter)];
        if adapter.releasesOnCancel {
          pending := pending - {adapter.requestCode};
        }
      }
    }

    /** `requestLocationUpdates(options)`: registers the adapter's pending intent and asks it for updates. */
    method RequestLocationUpdates(options: O)
      requires Valid()
      modifies this
      ensures Valid() && isConnected
      ensures selected.None? ==> pending == old(ConnectPending()) && trace == old(trace) + old(ConnectTrace())
      ensures selected.Some? ==>
        && pending == old(ConnectPending()) + {Current().requestCode}
        && trace == old(trace) + old(ConnectTrace()) + [RequestUpdates(Current(), options)]
    {
      Connect();
      if selected.None? {
        return;
      }
      var adapter := adapters[selected.value];
      pending := pending + {adapter.requestCode};
      trace := trace + [RequestUpdates(adapter, options)];
    }

    /**
     * `requestSingleLocation(options, callback)`: the adapter's handle, or None (null)
     * when no adapter is in use, where the source's null dereference is caught.
     */
    method RequestSingleLocation(options: O) returns (r: Option<PendingResult>)
      requires Valid()
      modifies this
      ensures Valid() && isConnected
      ensures pending == old(ConnectPending())
      ensures r.Some? <==> selected.Some?
      ensures selected.None? ==> trace == old(trace) + old(ConnectTrace())
      ensures selected.Some? ==>
        && trace == old(trace) + old(ConnectTrace()) + [RequestSingle(Current(), options)]
        && r == Some(PendingResult(Current(), |trace| - 1))
    {
      Connect();
      if selected.None? {
        return None;
      }
      var adapter := adapters[selected.value];
      r := Some(PendingResult(adapter, |trace|));
      trace := trace + [RequestSingle(adapter, options)];
    }

    /** `onSystemLocationProvidersChanged(options)`: refreshes the adapter's pending intent and notifies it. */
    method OnSystemLocationProvidersChanged(options: O)
      requires Valid()
      modifies this
      ensures Valid() && isConnected
      ensures selected.None? ==> pending == old(ConnectPending()) && trace == old(trace) + old(ConnectTrace())
      ensures selected.Some? ==>
        && pending == old(ConnectPending()) + {Current().requestCode}
        && trace == old(trace) + old(ConnectTrace()) + [ProvidersChanged(Current(), options)]
    {
      Connect();
      if selected.Some? {
        var adapter := adapters[selected.value];
        pending := pending + {adapter.requestCode};
        trace := trace + [ProvidersChanged(adapter, options)];
      }
    }

    /** `areUpdatesRequested()`: whether the adapter in use has a pending intent; looks only, creates nothing. */
    method AreUpdatesRequested() returns (r: bool)
      requires Valid()
      modifies this
      ensures Valid() && isConnected
      ensures r <==> selected.Some? && Current().requestCode in pending
      ensures pending == old(ConnectPending()) && trace == old(trace) + old(ConnectTrace())
    {
      Connect();
      if selected.None? {
        return false;
      }
      r := adapters[selected.value].requestCode in pending;
    }
  }

  /**
   * Only the second of two adapters is available: it is selected and its stale
   * intent is cancelled and released; later calls make no further checks, and
   * updates are no longer requested once `cancelRequests` has released them.
   */
  method SecondAdapterScenario()
  {
    var fused := Adapter(0, false, 1, true);
    var standard := Adapter(1, true, 2, true);
    var provider := new UALocationProvider<int>([fused, standard], {1, 2});
    assert [fused, standard][..1] == [fused] && [fused][..0] == [];
    assert ScanPending([fused], {1, 2}) == {1, 2};
    assert ScanTrace<int>([fused], {1, 2}) == [IsAvailable(fused)];
    assert AdapterScan<int>(standard, {1, 2}) == [IsAvailable(standard), CancelUpdates(standard)];
    assert ScanTrace<int>([fused, standard], {1, 2}) == [IsAvailable(fused), IsAvailable(standard), CancelUpdates(standard)];
    var requested := provider.AreUpdatesRequested();
    assert provider.selected == Some(1);
    assert !requested && provider.pending == {1};
    assert provider.trace == [IsAvailable(fused), IsAvailable(standard), CancelUpdates(standard)];
    var before := provider.trace;
    provider.RequestLocationUpdates(7);
    requested := provider.AreUpdatesRequested();
    assert requested;
    provider.CancelRequests();
    requested := provider.AreUpdatesRequested();
    assert !requested;
    assert provider.trace == before + [RequestUpdates(standard, 7), CancelUpdates(standard)];
  }
}
