/**
  The connectivity prober of whatnetwork. The operating system's interface
  table and the HTTP client are inputs: `listing` is what `net.Interfaces()`
  returned, each interface carries what its `Addrs()` returns, and `head`
  gives the outcome of an HTTP HEAD request to a URL.
 */
module Prober {
  import opened Wrappers
  import opened Classifier

  /** The outcome of a connectivity check (Go's `ConnectionStatus`). */
  datatype ConnectionStatus =
    | NoInterfaces
    | NoInterfacesUp
    | NoNonLoopbacksFound
    | NoInternet
    | Connected
  {
    /** The string the Go constant holds; never the empty status returned beside an error. */
    function Name(): (s: string)
      ensures s != ""
    {
      match this
      case NoInterfaces => "NoInterfaces"
      case NoInterfacesUp => "NoInterfacesUp"
      case NoNonLoopbacksFound => "NoNonLoopbacksFound"
      case NoInternet => "NoInternet"
      case Connected => "Connected"
    }
  }

  /**
    An address assigned to an interface: an IP address, loopback or not, or
    an address of any other kind (which the prober ignores).
   */
  datatype Addr = IPAddr(loopback: bool) | OtherAddr

  /** A network interface: its up flag and the outcome of asking for its addresses. */
  datatype Interface = Interface(up: bool, addrs: Result<seq<Addr>, Error>)

  /** An HTTP HEAD client: `None` when the request succeeds, the error otherwise. */
  type Head = string -> Option<Error>

  /** The host every check probes first. */
  const WellKnownUrl: string := "http://www.google.com"

  // ---------------------------------------------------------------------
  // Specification of the check.
  // ---------------------------------------------------------------------

  /** The addresses the prober counts: IP addresses that are not loopback. */
  predicate Counted(a: Addr) {
    a.IPAddr? && !a.loopback
  }

  /** How many addresses of `addrs` are counted. */
  function CountedAddrs(addrs: seq<Addr>): nat {
    if addrs == [] then 0
    else CountedAddrs(addrs[..|addrs| - 1]) + (if Counted(addrs[|addrs| - 1]) then 1 else 0)
  }

  /** How many interfaces of `ifaces` are up. */
  function UpCount(ifaces: seq<Interface>): nat {
    if ifaces == [] then 0
    else UpCount(ifaces[..|ifaces| - 1]) + (if ifaces[|ifaces| - 1].up then 1 else 0)
  }

  /** How many counted addresses the up interfaces of `ifaces` have in all. */
  function NonLoopbackCount(ifaces: seq<Interface>): nat {
    if ifaces == [] then 0
    else
      var last := ifaces[|ifaces| - 1];
      NonLoopbackCount(ifaces[..|ifaces| - 1])
        + (if last.up && last.addrs.Ok? then CountedAddrs(last.addrs.value) else 0)
  }

  /** The error of the first up interface whose addresses cannot be listed, if any. */
  function FirstAddrsError(ifaces: seq<Interface>): Option<Error> {
    if ifaces == [] then None
    else
      var before := FirstAddrsError(ifaces[..|ifaces| - 1]);
      var last := ifaces[|ifaces| - 1];
      if before.Some? then before
      else if last.up && last.addrs.Err? then Some(last.addrs.error)
      else None
  }

  /** The URLs to probe, in order: the well-known host, then `extraUrl` when it is not empty. */
  function TestUrls(extraUrl: string): (urls: seq<string>)
    ensures 1 <= |urls| <= 2 && urls[0] == WellKnownUrl
    ensures |urls| == 2 <==> extraUrl != ""
    ensures |urls| == 2 ==> urls[1] == extraUrl
  {
    if extraUrl != "" then [WellKnownUrl, extraUrl] else [WellKnownUrl]
  }

  /**
    Probe `urls` in order and stop at the first failure: a connectivity
    category means no internet; any other failure is handed back raw.
   */
  function Probe(urls: seq<string>, head: Head): Result<ConnectionStatus, Error> {
    if urls == [] then Ok(Connected)
    else
      match head(urls[0])
      case None => Probe(urls[1..], head)
      case Some(e) => if ExtractBasicError(e).kind.IsConnectivity() then Ok(NoInternet) else Err(e)
  }

  /** The URLs a probe of `urls` sends a request to: up to and including the first failure. */
  function ProbedUrls(urls: seq<string>, head: Head): seq<string> {
    if urls == [] then []
    else [urls[0]] + (if head(urls[0]).None? then ProbedUrls(urls[1..], head) else [])
  }

  /** The interface table passes every local test, so the check goes on to probe. */
  predicate ReachesProbes(listing: Result<seq<Interface>, Error>) {
    listing.Ok? && listing.value != [] && FirstAddrsError(listing.value).None?
    && UpCount(listing.value) > 0 && NonLoopbackCount(listing.value) > 0
  }

  /** What `CheckNetworkConnectionAndHost(extraUrl)` returns: a status, or the raw error with the empty status. */
  function Check(listing: Result<seq<Interface>, Error>, extraUrl: string, head: Head): Result<ConnectionStatus, Error> {
    match listing
    case Err(e) => Err(e)
    case Ok(ifaces) =>
      if ifaces == [] then Ok(NoInterfaces)
      else if FirstAddrsError(ifaces).Some? then Err(FirstAddrsError(ifaces).value)
      else if UpCount(ifaces) == 0 then Ok(NoInterfacesUp)
      else if NonLoopbackCount(ifaces) == 0 then Ok(NoNonLoopbacksFound)
      else Probe(TestUrls(extraUrl), head)
  }

  // ---------------------------------------------------------------------
  // The check itself.
  // ---------------------------------------------------------------------

  /**
    The interface loop of Go's `CheckNetworkConnectionAndHost`: count the up
    interfaces and the counted addresses of each, stopping at the first up
    interface whose addresses cannot be listed.
   */
  method CountInterfaces(interfaces: seq<Interface>) returns (interfacesUp: nat, nonLoopbackAddrs: nat, err: Option<Error>)
    ensures err == FirstAddrsError(interfaces)
    ensures err.None? ==> interfacesUp == UpCount(interfaces) && nonLoopbackAddrs == NonLoopbackCount(interfaces)
  {
    interfacesUp, nonLoopbackAddrs := 0, 0;
    for i := 0 to |interfaces|
      invariant interfacesUp == UpCount(interfaces[..i])
      invariant nonLoopbackAddrs == NonLoopbackCount(interfaces[..i])
      invariant FirstAddrsError(interfaces[..i]).None?
    {
      assert interfaces[..i + 1][..i] == interfaces[..i];
      if !interfaces[i].up {
        continue;
      }
      interfacesUp := interfacesUp + 1;
      var addrs := interfaces[i].addrs;
      if addrs.Err? {
        FirstAddrsErrorNone(interfaces[..i]);
        FirstAddrsErrorAt(interfaces, i);
        return interfacesUp, nonLoopbackAddrs, Some(addrs.error);
      }
      ghost var counted := nonLoopbackAddrs;
      for k := 0 to |addrs.value|
        invariant nonLoopbackAddrs == counted + CountedAddrs(addrs.value[..k])
      {
        assert addrs.value[..k + 1][..k] == addrs.value[..k];
        if addrs.value[k].IPAddr? {
          if addrs.value[k].loopback {
            continue;
          }
          nonLoopbackAddrs := nonLoopbackAddrs + 1;
        }
      }
      assert addrs.value[..|addrs.value|] == addrs.value;
    }
    assert interfaces[..|interfaces|] == interfaces;
    err := None;
  }

  /**
    Go's `CheckNetworkConnectionAndHost`. `probed` records, in order, the
    URLs a HEAD request was sent to.
   */
  method CheckNetworkConnectionAndHost(listing: Result<seq<Interface>, Error>, head: Head, extraUrl: string)
    returns (result: Result<ConnectionStatus, Error>, ghost probed: seq<string>)
    ensures result == Check(listing, extraUrl, head)
    ensures probed == if ReachesProbes(listing) then ProbedUrls(TestUrls(extraUrl), head) else []
  {
    probed := [];
    if listing.Err? {
      return Err(listing.error), probed;
    }
    var interfaces := listing.value;
    if |interfaces| == 0 {
      return Ok(NoInterfaces), probed;
    }
    var interfacesUp, nonLoopbackAddrs, err := CountInterfaces(interfaces);
    if err.Some? {
      return Err(err.value), probed;
    }
    if interfacesUp == 0 {
      return Ok(NoInterfacesUp), probed;
    }
    if nonLoopbackAddrs == 0 {
      return Ok(NoNonLoopbacksFound), probed;
    }

    var testUrls: array<string>;
    if extraUrl != "" {
      testUrls := new string[2];
      testUrls[1] := extraUrl;
    } else {
      testUrls := new string[1];
    }
    testUrls[0] := WellKnownUrl;
    ghost var urls := testUrls[..];
    assert urls == TestUrls(extraUrl);

    for i := 0 to testUrls.Length
      invariant testUrls[..] == urls
      invariant Probe(urls, head) == Probe(urls[i..], head)
      invariant ProbedUrls(urls, head) == probed + ProbedUrls(urls[i..], head)
    {
      assert urls[i..][0] == testUrls[i] && urls[i..][1..] == urls[i + 1..];
      var err := head(testUrls[i]);
      probed := probed + [testUrls[i]];
      if err.Some? {
        var basicErr := ExtractBasicError(err.value);
        if basicErr.kind == CantFindHost || basicErr.kind == CantResolveHost || basicErr.kind == CantConnectToHost {
          return Ok(NoInternet), probed;
        } else {
          return Err(err.value), probed;
        }
      }
    }
    return Ok(Connected), probed;
  }

  /** Go's `CheckNetworkConnection`: the check with no extra host. */
  method CheckNetworkConnection(listing: Result<seq<Interface>, Error>, head: Head)
    returns (result: Result<ConnectionStatus, Error>, ghost probed: seq<string>)
    ensures result == Check(listing, "", head)
    ensures probed == if ReachesProbes(listing) then ProbedUrls([WellKnownUrl], head) else []
  {
    result, probed := CheckNetworkConnectionAndHost(listing, head, "");
  }

  // ---------------------------------------------------------------------
  // The counters against their meaning.
  // ---------------------------------------------------------------------

  /** No interface is counted as up exactly when every interface is down. */
  lemma {:induction false} UpCountZero(ifaces: seq<Interface>)
    ensures UpCount(ifaces) == 0 <==> forall i :: 0 <= i < |ifaces| ==> !ifaces[i].up
  {
    if ifaces != [] {
      var init := ifaces[..|ifaces| - 1];
      UpCountZero(init);
      assert forall i :: 0 <= i < |init| ==> init[i] == ifaces[i];
    }
  }

  /** No address is counted exactly when every address is loopback or not an IP address. */
  lemma {:induction false} CountedAddrsZero(addrs: seq<Addr>)
    ensures CountedAddrs(addrs) == 0 <==> forall k :: 0 <= k < |addrs| ==> !Counted(addrs[k])
  {
    if addrs != [] {
      var init := addrs[..|addrs| - 1];
      CountedAddrsZero(init);
      assert forall k :: 0 <= k < |init| ==> init[k] == addrs[k];
    }
  }

  /**
    The total is zero exactly when no up interface whose addresses could be
    listed has an address that is counted.
   */
  lemma {:induction false} NonLoopbackCountZero(ifaces: seq<Interface>)
    ensures NonLoopbackCount(ifaces) == 0 <==>
              forall i, k :: 0 <= i < |ifaces| && ifaces[i].up && ifaces[i].addrs.Ok? && 0 <= k < |ifaces[i].addrs.value|
                ==> !Counted(ifaces[i].addrs.value[k])
  {
    if ifaces != [] {
      var init := ifaces[..|ifaces| - 1];
      var last := ifaces[|ifaces| - 1];
      NonLoopbackCountZero(init);
      assert forall i :: 0 <= i < |init| ==> init[i] == ifaces[i];
      if last.up && last.addrs.Ok? {
        CountedAddrsZero(last.addrs.value);
      }
    }
  }

  /** No error is reported exactly when every up interface lists its addresses. */
  lemma {:induction false} FirstAddrsErrorNone(ifaces: seq<Interface>)
    ensures FirstAddrsError(ifaces).None? <==> forall i :: 0 <= i < |ifaces| && ifaces[i].up ==> ifaces[i].addrs.Ok?
  {
    if ifaces != [] {
      var init := ifaces[..|ifaces| - 1];
      FirstAddrsErrorNone(init);
      assert forall i :: 0 <= i < |init| ==> init[i] == ifaces[i];
    }
  }

  /** The error reported is that of the first up interface whose addresses cannot be listed. */
  lemma {:induction false} FirstAddrsErrorAt(ifaces: seq<Interface>, i: nat)
    requires i < |ifaces| && ifaces[i].up && ifaces[i].addrs.Err?
    requires forall j :: 0 <= j < i && ifaces[j].up ==> ifaces[j].addrs.Ok?
    ensures FirstAddrsError(ifaces) == Some(ifaces[i].addrs.error)
  {
    var init := ifaces[..|ifaces| - 1];
    if i < |ifaces| - 1 {
      FirstAddrsErrorAt(init, i);
    } else {
      FirstAddrsErrorNone(init);
    }
  }

  // ---------------------------------------------------------------------
  // The probe loop against its meaning.
  // ---------------------------------------------------------------------

  /** A probe reports `Connected` exactly when every request succeeds, and then every URL was requested. */
  lemma {:induction false} ProbeConnected(urls: seq<string>, head: Head)
    ensures Probe(urls, head) == Ok(Connected) <==> forall j :: 0 <= j < |urls| ==> head(urls[j]).None?
    ensures (forall j :: 0 <= j < |urls| ==> head(urls[j]).None?) ==> ProbedUrls(urls, head) == urls
  {
    if urls != [] {
      ProbeConnected(urls[1..], head);
      assert forall j :: 1 <= j < |urls| ==> urls[1..][j - 1] == urls[j];
      if head(urls[0]).None? {
        assert forall j :: 0 <= j < |urls| - 1 ==> urls[j + 1] == urls[1..][j];
      }
    }
  }

  /**
    When request `j` is the first that fails, the probe stops there: the
    URLs requested are exactly `urls[..j + 1]`, a connectivity category
    gives `NoInternet` and any other category hands the raw error back.
   */
  lemma {:induction false} ProbeFirstFailure(urls: seq<string>, head: Head, j: nat)
    requires j < |urls| && head(urls[j]).Some?
    requires forall l :: 0 <= l < j ==> head(urls[l]).None?
    ensures var e := head(urls[j]).value;
            Probe(urls, head) == if ExtractBasicError(e).kind.IsConnectivity() then Ok(NoInternet) else Err(e)
    ensures ProbedUrls(urls, head) == urls[..j + 1]
  {
    if j > 0 {
      assert forall l :: 0 <= l < j - 1 ==> urls[1..][l] == urls[l + 1];
      ProbeFirstFailure(urls[1..], head, j - 1);
      assert urls[..j + 1] == [urls[0]] + urls[1..][..j];
    }
  }

  // ---------------------------------------------------------------------
  // What the check reports.
  // ---------------------------------------------------------------------

  /** Failing to enumerate the interfaces is handed back raw, before anything else. */
  lemma CheckEnumerationError(listing: Result<seq<Interface>, Error>, extraUrl: string, head: Head)
    requires listing.Err?
    ensures Check(listing, extraUrl, head) == Err(listing.error)
    ensures !ReachesProbes(listing)
  {
  }

  /**
    Failing to list the addresses of an up interface is handed back raw:
    the error of the first such interface, whatever the counters say.
   */
  lemma CheckAddrsError(ifaces: seq<Interface>, extraUrl: string, head: Head, i: nat)
    requires i < |ifaces| && ifaces[i].up && ifaces[i].addrs.Err?
    requires forall j :: 0 <= j < i && ifaces[j].up ==> ifaces[j].addrs.Ok?
    ensures Check(Ok(ifaces), extraUrl, head) == Err(ifaces[i].addrs.error)
    ensures !ReachesProbes(Ok(ifaces))
  {
    FirstAddrsErrorAt(ifaces, i);
  }

  /** `NoInterfaces` is reported exactly for an empty interface table. */
  lemma CheckNoInterfaces(listing: Result<seq<Interface>, Error>, extraUrl: string, head: Head)
    ensures Check(listing, extraUrl, head) == Ok(NoInterfaces) <==> listing == Ok([])
  {
    if ReachesProbes(listing) {
      ProbeStatuses(TestUrls(extraUrl), head);
    }
  }

  /** `NoInterfacesUp` is reported exactly when the table is not empty and every interface is down. */
  lemma CheckNoInterfacesUp(listing: Result<seq<Interface>, Error>, extraUrl: string, head: Head)
    ensures Check(listing, extraUrl, head) == Ok(NoInterfacesUp) <==>
              listing.Ok? && listing.value != [] && forall i :: 0 <= i < |listing.value| ==> !listing.value[i].up
  {
    if listing.Ok? {
      UpCountZero(listing.value);
      FirstAddrsErrorNone(listing.value);
    }
    if ReachesProbes(listing) {
      ProbeStatuses(TestUrls(extraUrl), head);
    }
  }

  /**
    `NoNonLoopbacksFound` is reported exactly when some interface is up,
    every up interface lists its addresses, and none of them is a counted
    (IP, non-loopback) address.
   */
  lemma CheckNoNonLoopbacks(listing: Result<seq<Interface>, Error>, extraUrl: string, head: Head)
    ensures Check(listing, extraUrl, head) == Ok(NoNonLoopbacksFound) <==>
              listing.Ok?
              && (exists i :: 0 <= i < |listing.value| && listing.value[i].up)
              && (forall i :: 0 <= i < |listing.value| && listing.value[i].up ==> listing.value[i].addrs.Ok?)
              && (forall i, k :: 0 <= i < |listing.value| && listing.value[i].up && listing.value[i].addrs.Ok?
                                 && 0 <= k < |listing.value[i].addrs.value|
                    ==> !Counted(listing.value[i].addrs.value[k]))
  {
    if listing.Ok? {
      UpCountZero(listing.value);
      FirstAddrsErrorNone(listing.value);
      NonLoopbackCountZero(listing.value);
    }
    if ReachesProbes(listing) {
      ProbeStatuses(TestUrls(extraUrl), head);
    }
  }

  /** A probe only ever reports `NoInternet`, `Connected` or a raw error. */
  lemma {:induction false} ProbeStatuses(urls: seq<string>, head: Head)
    ensures Probe(urls, head).Ok? ==> Probe(urls, head).value in {NoInternet, Connected}
  {
    if urls != [] && head(urls[0]).None? {
      ProbeStatuses(urls[1..], head);
    }
  }

  /**
    Once the local tests pass, `Connected` is reported exactly when every
    test URL answers, and then each was requested once, in order.
   */
  lemma CheckConnected(listing: Result<seq<Interface>, Error>, extraUrl: string, head: Head)
    ensures Check(listing, extraUrl, head) == Ok(Connected) <==>
              ReachesProbes(listing) && head(WellKnownUrl).None? && (extraUrl != "" ==> head(extraUrl).None?)
    ensures Check(listing, extraUrl, head) == Ok(Connected) ==> ProbedUrls(TestUrls(extraUrl), head) == TestUrls(extraUrl)
  {
    var urls := TestUrls(extraUrl);
    ProbeConnected(urls, head);
    assert (forall j :: 0 <= j < |urls| ==> head(urls[j]).None?) <==>
           head(WellKnownUrl).None? && (extraUrl != "" ==> head(extraUrl).None?);
  }

  /**
    A failure of the well-known host decides the check at once: the extra
    host is never requested, a connectivity category gives `NoInternet`
    and any other failure is handed back raw rather than masked.
   */
  lemma CheckWellKnownFails(listing: Result<seq<Interface>, Error>, extraUrl: string, head: Head)
    requires ReachesProbes(listing) && head(WellKnownUrl).Some?
    ensures ProbedUrls(TestUrls(extraUrl), head) == [WellKnownUrl]
    ensures var e := head(WellKnownUrl).value;
            Check(listing, extraUrl, head) == if ExtractBasicError(e).kind.IsConnectivity() then Ok(NoInternet) else Err(e)
  {
  }

  /**
    When the well-known host answers and the extra host fails, both were
    requested and the extra host's failure decides the check.
   */
  lemma CheckExtraHostFails(listing: Result<seq<Interface>, Error>, extraUrl: string, head: Head)
    requires ReachesProbes(listing) && extraUrl != ""
    requires head(WellKnownUrl).None? && head(extraUrl).Some?
    ensures ProbedUrls(TestUrls(extraUrl), head) == [WellKnownUrl, extraUrl]
    ensures var e := head(extraUrl).value;
            Check(listing, extraUrl, head) == if ExtractBasicError(e).kind.IsConnectivity() then Ok(NoInternet) else Err(e)
  {
    ProbeFirstFailure(TestUrls(extraUrl), head, 1);
  }

  /** A raw error from a probe is never one of the connectivity categories. */
  lemma {:induction false} ProbeErrorIsNotConnectivity(urls: seq<string>, head: Head)
    ensures Probe(urls, head).Err? ==> !ExtractBasicError(Probe(urls, head).error).kind.IsConnectivity()
    ensures Probe(urls, head).Err? ==> exists j :: 0 <= j < |urls| && head(urls[j]) == Some(Probe(urls, head).error)
  {
    if urls != [] && head(urls[0]).None? {
      ProbeErrorIsNotConnectivity(urls[1..], head);
      if Probe(urls, head).Err? {
        var j :| 0 <= j < |urls| - 1 && head(urls[1..][j]) == Some(Probe(urls, head).error);
        assert urls[1..][j] == urls[j + 1];
      }
    }
  }

  /** No status string is empty and no two statuses share one, so Go's empty status never names a result. */
  lemma StatusNamesDistinct(a: ConnectionStatus, b: ConnectionStatus)
    ensures a.Name() != ""
    ensures a.Name() == b.Name() ==> a == b
  {
  }
}
