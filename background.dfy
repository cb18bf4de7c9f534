/** The extension's background script: the address check behind the "Add IP
    to Lab Manager" context-menu entry, the reachability prober with its
    fixed fallback chain, the periodic sweep that writes a health state onto
    every stored host, and the address-bar keyword's suggestions and entry
    resolution. */
module Background {
  import opened Js
  import opened Hosts

  // ---------------------------------------------------------------------
  // The address check
  // ---------------------------------------------------------------------

  predicate IsDigit(c: char) {
    '0' <= c <= '9'
  }

  /** One group of the address pattern, alternative by alternative:
      `25[0-5]`, `2[0-4][0-9]`, or `[01]?[0-9][0-9]?` with each optional part
      absent or present. */
  predicate OctetPattern(g: string) {
    || (|g| == 3 && g[0] == '2' && g[1] == '5' && '0' <= g[2] <= '5')
    || (|g| == 3 && g[0] == '2' && '0' <= g[1] <= '4' && IsDigit(g[2]))
    || (|g| == 1 && IsDigit(g[0]))
    || (|g| == 2 && (g[0] == '0' || g[0] == '1') && IsDigit(g[1]))
    || (|g| == 2 && IsDigit(g[0]) && IsDigit(g[1]))
    || (|g| == 3 && (g[0] == '0' || g[0] == '1') && IsDigit(g[1]) && IsDigit(g[2]))
  }

  /** The address pattern, anchored at both ends: three groups each followed
      by a dot, then a fourth group. */
  ghost predicate IPv4Pattern(s: string)
    ensures IPv4Pattern(s) ==> 7 <= |s| <= 15
  {
    exists a, b, c, d ::
      OctetPattern(a) && OctetPattern(b) && OctetPattern(c) && OctetPattern(d)
      && s == a + "." + b + "." + c + "." + d
  }

  /** A decimal group: one to three digits, leading zeros allowed, value at
      most 255. */
  predicate ValidOctet(g: string) {
    1 <= |g| <= 3 && (forall i :: 0 <= i < |g| ==> IsDigit(g[i])) && DigitsValue(g, 10) <= 255
  }

  /** The pattern's alternatives accept exactly the decimal groups up to 255. */
  lemma OctetPatternValid(g: string)
    ensures OctetPattern(g) <==> ValidOctet(g)
  {
    if 1 <= |g| {
      assert DigitsValue(g[..1], 10) == DigitOf(g[0]) by {
        assert g[..1][..0] == [];
      }
    }
    if 2 <= |g| {
      assert DigitsValue(g[..2], 10) == DigitsValue(g[..1], 10) * 10 + DigitOf(g[1]) by {
        assert g[..2][..1] == g[..1];
      }
    }
    if |g| == 2 {
      assert g[..2] == g;
    } else if |g| == 3 {
      assert DigitsValue(g, 10) == DigitsValue(g[..2], 10) * 10 + DigitOf(g[2]);
    } else if |g| == 1 {
      assert g[..1] == g;
    }
  }

  /** The four parts of a dotted text built from four dot-free parts. */
  lemma SplitQuad(a: string, b: string, c: string, d: string)
    requires '.' !in a && '.' !in b && '.' !in c && '.' !in d
    ensures Split(a + "." + b + "." + c + "." + d, '.') == [a, b, c, d]
  {
    var cd := c + "." + d;
    var bcd := b + "." + cd;
    assert a + "." + b + "." + c + "." + d == a + ['.'] + bcd;
    assert Split(cd, '.') == [c, d] by {
      SplitAtSeparator(c, '.', d);
      SplitPlain(d, '.');
    }
    assert Split(bcd, '.') == [b, c, d] by {
      SplitAtSeparator(b, '.', cd);
    }
    SplitAtSeparator(a, '.', bcd);
  }

  /** The four parts of a text with four dot-separated parts. */
  lemma JoinQuad(s: string)
    requires |Split(s, '.')| == 4
    ensures var p := Split(s, '.'); s == p[0] + "." + p[1] + "." + p[2] + "." + p[3]
  {
    var p := Split(s, '.');
    JoinSplit(s, '.');
    var p1, p2, p3 := p[1..], p[2..], p[3..];
    assert Join(p3, ".") == p[3];
    assert Join(p2, ".") == p[2] + "." + p[3] by {
      assert p2[1..] == p3;
    }
    assert Join(p1, ".") == p[1] + "." + (p[2] + "." + p[3]) by {
      assert p1[1..] == p2;
    }
    assert Join(p, ".") == p[0] + "." + (p[1] + "." + (p[2] + "." + p[3])) by {
      assert p[1..] == p1;
    }
  }

  /** Four dot-separated groups of one to three digits, each at most 255. */
  predicate DottedQuad(s: string) {
    var p := Split(s, '.');
    |p| == 4 && forall i :: 0 <= i < 4 ==> ValidOctet(p[i])
  }

  /** A group the pattern accepts holds no dot. */
  lemma OctetNoDot(g: string)
    requires OctetPattern(g)
    ensures ValidOctet(g) && '.' !in g
  {
    OctetPatternValid(g);
    assert forall i :: 0 <= i < |g| ==> g[i] != '.' by {
      forall i | 0 <= i < |g| ensures g[i] != '.' {
        assert IsDigit(g[i]);
      }
    }
  }

  /** A text the pattern accepts splits into four valid groups. */
  lemma PatternIsDotted(s: string)
    requires IPv4Pattern(s)
    ensures DottedQuad(s)
  {
    var a, b, c, d :| OctetPattern(a) && OctetPattern(b) && OctetPattern(c) && OctetPattern(d)
      && s == a + "." + b + "." + c + "." + d;
    OctetNoDot(a);
    OctetNoDot(b);
    OctetNoDot(c);
    OctetNoDot(d);
    SplitQuad(a, b, c, d);
  }

  /** Four valid groups joined by dots are accepted by the pattern. */
  lemma DottedIsPattern(s: string)
    requires DottedQuad(s)
    ensures IPv4Pattern(s)
  {
    var p := Split(s, '.');
    JoinQuad(s);
    OctetPatternValid(p[0]);
    OctetPatternValid(p[1]);
    OctetPatternValid(p[2]);
    OctetPatternValid(p[3]);
    assert OctetPattern(p[0]) && OctetPattern(p[1]) && OctetPattern(p[2]) && OctetPattern(p[3]);
  }

  /** The address check accepts a text exactly when it is four dot-separated
      groups of one to three digits, each at most 255. */
  lemma IPv4PatternSplit(s: string)
    ensures IPv4Pattern(s) <==> DottedQuad(s)
  {
    if IPv4Pattern(s) {
      PatternIsDotted(s);
    }
    if DottedQuad(s) {
      DottedIsPattern(s);
    }
  }

  /** Any four numbers up to 255, written in decimal and joined by dots, pass
      the check. */
  lemma DottedQuadAccepted(a: nat, b: nat, c: nat, d: nat)
    requires a <= 255 && b <= 255 && c <= 255 && d <= 255
    ensures IPv4Pattern(NatToString(a) + "." + NatToString(b) + "." + NatToString(c) + "." + NatToString(d))
  {
    var ga, gb, gc, gd := NatToString(a), NatToString(b), NatToString(c), NatToString(d);
    DecimalOctet(a);
    DecimalOctet(b);
    DecimalOctet(c);
    DecimalOctet(d);
    assert OctetPattern(ga) && OctetPattern(gb) && OctetPattern(gc) && OctetPattern(gd)
      && ga + "." + gb + "." + gc + "." + gd == ga + "." + gb + "." + gc + "." + gd;
  }

  /** A number up to 255 written in decimal is one group of the pattern. */
  lemma DecimalOctet(n: nat)
    requires n <= 255
    ensures OctetPattern(NatToString(n))
  {
    NatToStringShort(n);
    NatToStringValue(n);
    OctetPatternValid(NatToString(n));
  }

  /** What a click on the context-menu entry does. */
  datatype MenuAction =
    | Ignored                                   // another menu entry
    | StorePending(pendingIp: string, pendingIpSource: string)
    | NotifyInvalid

  /** The context-menu handler: for this extension's entry, the trimmed
      selection is stored for the popup when it passes the address check, and
      a notification is shown otherwise. */
  function ContextMenuAction(menuItemId: string, selectionText: string, tabUrl: string): (r: MenuAction)
    ensures r.StorePending? ==> r.pendingIp == Trim(selectionText) && r.pendingIpSource == tabUrl
    ensures r.StorePending? ==> IPv4Pattern(r.pendingIp) && Trimmed(r.pendingIp)
    ensures r.StorePending? <==> menuItemId == "addIpToManager" && IPv4Pattern(Trim(selectionText))
    ensures r.Ignored? <==> menuItemId != "addIpToManager"
  {
    if menuItemId != "addIpToManager" then Ignored
    else
      var selected := Trim(selectionText);
      IPv4PatternSplit(selected);
      TrimIdempotent(selectionText);
      if DottedQuad(selected) then StorePending(selected, tabUrl) else NotifyInvalid
  }

  // ---------------------------------------------------------------------
  // The prober
  // ---------------------------------------------------------------------

  /** The ports tried after http and https, in order. */
  const CommonPorts: seq<nat> := [22, 23, 80, 443, 3389, 8080, 8443]

  /** The number of attempts in the chain. */
  const Attempts: nat := 9

  /** How one attempt ended: a response arrived, `elapsed` milliseconds after
      the probe started, or the request failed or timed out. */
  datatype Attempt = Reached(elapsed: int) | Failed

  /** The object the prober resolves to. */
  datatype ProbeResult = ProbeResult(success: bool, responseTime: Option<int>, status: HealthStatus, probeMethod: string)

  /** The scheme of a `HEAD` request. */
  datatype Scheme = Http | Https

  /** One `fetch`: scheme, address, for the port attempts an explicit port,
      and the `AbortSignal.timeout` in milliseconds. */
  datatype Request = Request(scheme: Scheme, ip: string, port: Option<nat>, timeout: nat)

  /** The request of attempt `i`: http, https, then http on each common port. */
  function AttemptRequest(ip: string, i: nat): (r: Request)
    requires i < Attempts
    ensures r.timeout == AttemptTimeout(i)
  {
    if i == 0 then Request(Http, ip, None, 3000)
    else if i == 1 then Request(Https, ip, None, 3000)
    else Request(Http, ip, Some(CommonPorts[i - 2]), 2000)
  }

  /** The summed timeouts of a list of requests. */
  function TimeoutTotal(rs: seq<Request>): nat {
    if rs == [] then 0 else TimeoutTotal(rs[..|rs| - 1]) + rs[|rs| - 1].timeout
  }

  /** The timeout of attempt `i`: 3000 ms for http and https, 2000 ms per port. */
  function AttemptTimeout(i: nat): nat
    requires i < Attempts
  {
    if i < 2 then 3000 else 2000
  }

  /** The method a success on attempt `i` reports. */
  function MethodLabel(i: nat): string
    requires i < Attempts
  {
    if i == 0 then "http" else if i == 1 then "https" else "port-" + NatToString(CommonPorts[i - 2])
  }

  /** The first attempt from `from` on that reached the host. */
  function FirstReached(outcomes: seq<Attempt>, from: nat): (r: Option<nat>)
    requires from <= |outcomes|
    ensures r.Some? ==> from <= r.value < |outcomes| && outcomes[r.value].Reached?
    ensures r.Some? ==> forall i :: from <= i < r.value ==> outcomes[i].Failed?
    ensures r.None? ==> forall i :: from <= i < |outcomes| ==> outcomes[i].Failed?
    decreases |outcomes| - from
  {
    if from == |outcomes| then None
    else if outcomes[from].Reached? then Some(from)
    else FirstReached(outcomes, from + 1)
  }

  /** What `performHealthCheck` resolves to, given how each of the nine
      attempts would end: the first success decides, with its elapsed time and
      method; if none succeeds the host is offline with method `all-failed`
      and no response time. */
  function ProbeSpec(outcomes: seq<Attempt>): (r: ProbeResult)
    requires |outcomes| == Attempts
    ensures r.success <==> r.status == Online
    ensures r.success <==> r.responseTime.Some?
    ensures r.success <==> exists i :: 0 <= i < Attempts && outcomes[i].Reached?
  {
    match FirstReached(outcomes, 0)
    case Some(i) => ProbeResult(true, Some(outcomes[i].elapsed), Online, MethodLabel(i))
    case None => ProbeResult(false, None, Offline, "all-failed")
  }

  /** When attempt `i` is the first to reach the host, the probe succeeds with
      its elapsed time and method. */
  lemma ProbeSpecAt(outcomes: seq<Attempt>, i: nat)
    requires |outcomes| == Attempts && i < Attempts && outcomes[i].Reached?
    requires forall k :: 0 <= k < i ==> outcomes[k].Failed?
    ensures ProbeSpec(outcomes) == ProbeResult(true, Some(outcomes[i].elapsed), Online, MethodLabel(i))
    ensures AttemptsMade(outcomes) == i + 1
  {
    assert FirstReached(outcomes, 0) == Some(i);
  }

  /** The summed timeouts of the first `n` attempts. */
  function TimeoutBudget(n: nat): nat
    requires n <= Attempts
  {
    if n == 0 then 0 else TimeoutBudget(n - 1) + AttemptTimeout(n - 1)
  }

  /** How many attempts the prober makes: up to and including the first that
      reaches the host, or all nine. */
  function AttemptsMade(outcomes: seq<Attempt>): nat
    requires |outcomes| == Attempts
  {
    match FirstReached(outcomes, 0)
    case Some(i) => i + 1
    case None => Attempts
  }

  /** The prober stops at the first attempt that reaches the host: every
      earlier attempt failed, it succeeds exactly when its last attempt reached
      the host, and a failure means all nine attempts were made. */
  lemma AttemptsMadeStops(outcomes: seq<Attempt>)
    requires |outcomes| == Attempts
    ensures var n := AttemptsMade(outcomes);
      && 1 <= n <= Attempts
      && (forall i :: 0 <= i < n - 1 ==> outcomes[i].Failed?)
      && (ProbeSpec(outcomes).success <==> outcomes[n - 1].Reached?)
      && (!ProbeSpec(outcomes).success ==> n == Attempts)
  {
  }

  /** `performHealthCheck(ip)`: tries the chain in order and returns at the
      first attempt that reaches the host. Also returns the requests it sent. */
  method PerformHealthCheck(ip: string, outcomes: seq<Attempt>) returns (result: ProbeResult, tried: seq<Request>)
    requires |outcomes| == Attempts
    ensures result == ProbeSpec(outcomes)
    ensures |tried| == AttemptsMade(outcomes)
    ensures forall i :: 0 <= i < |tried| ==> tried[i] == AttemptRequest(ip, i)
    ensures TimeoutTotal(tried) <= 20000
  {
    tried := [Request(Http, ip, None, 3000)];
    if outcomes[0].Reached? {
      ProbeSpecAt(outcomes, 0);
      TriedWithinBudget(ip, tried);
      return ProbeResult(true, Some(outcomes[0].elapsed), Online, "http"), tried;
    }
    tried := tried + [Request(Https, ip, None, 3000)];
    if outcomes[1].Reached? {
      ProbeSpecAt(outcomes, 1);
      TriedWithinBudget(ip, tried);
      return ProbeResult(true, Some(outcomes[1].elapsed), Online, "https"), tried;
    }
    result, tried := TryPorts(ip, outcomes, tried);
    TriedWithinBudget(ip, tried);
  }

  /** The port stage of `performHealthCheck`, once http and https failed:
      `http://ip:port` for each common port in order, stopping at the first
      that answers; `all-failed` when none does. */
  method TryPorts(ip: string, outcomes: seq<Attempt>, tried0: seq<Request>) returns (result: ProbeResult, tried: seq<Request>)
    requires |outcomes| == Attempts && outcomes[0].Failed? && outcomes[1].Failed?
    requires tried0 == [AttemptRequest(ip, 0), AttemptRequest(ip, 1)]
    ensures result == ProbeSpec(outcomes)
    ensures |tried| == AttemptsMade(outcomes)
    ensures forall i :: 0 <= i < |tried| ==> tried[i] == AttemptRequest(ip, i)
  {
    tried := tried0;
    var j := 0;
    while j < |CommonPorts|
      invariant 0 <= j <= |CommonPorts|
      invariant |tried| == j + 2
      invariant forall i :: 0 <= i < j + 2 ==> tried[i] == AttemptRequest(ip, i)
      invariant forall i :: 0 <= i < j + 2 ==> outcomes[i].Failed?
    {
      var port := CommonPorts[j];
      tried := tried + [Request(Http, ip, Some(port), 2000)];
      if outcomes[j + 2].Reached? {
        ProbeSpecAt(outcomes, j + 2);
        result := ProbeResult(true, Some(outcomes[j + 2].elapsed), Online, "port-" + NatToString(port));
        return;
      }
      j := j + 1;
    }
    assert FirstReached(outcomes, 0).None?;
    result := ProbeResult(false, None, Offline, "all-failed");
  }

  /** The prober reports failure, offline, `all-failed` and no response time
      exactly when all nine attempts fail. */
  lemma ProbeAllFailed(outcomes: seq<Attempt>)
    requires |outcomes| == Attempts
    ensures (forall i :: 0 <= i < Attempts ==> outcomes[i].Failed?) <==>
      ProbeSpec(outcomes) == ProbeResult(false, None, Offline, "all-failed")
  {
    if FirstReached(outcomes, 0).Some? {
      var i := FirstReached(outcomes, 0).value;
      assert ProbeSpec(outcomes).success;
    }
  }

  /** A success is online with a response time, and its method names the
      first attempt that reached the host: `http`, `https` or `port-p`. */
  lemma ProbeSuccess(outcomes: seq<Attempt>)
    requires |outcomes| == Attempts
    ensures var r := ProbeSpec(outcomes);
      r.success ==>
        && r.status == Online && r.responseTime.Some?
        && exists i :: 0 <= i < Attempts && outcomes[i].Reached? && r.responseTime.value == outcomes[i].elapsed
             && r.probeMethod == MethodLabel(i) && (forall j :: 0 <= j < i ==> outcomes[j].Failed?)
    ensures var r := ProbeSpec(outcomes);
      r.success ==> r.probeMethod == "http" || r.probeMethod == "https" || exists p :: p in CommonPorts && r.probeMethod == "port-" + NatToString(p)
  {
    if FirstReached(outcomes, 0).Some? {
      var i := FirstReached(outcomes, 0).value;
      if i >= 2 {
        assert CommonPorts[i - 2] in CommonPorts;
      }
    }
  }

  /** Different ports give different `port-` labels. */
  lemma PortLabelsDistinct(p: nat, q: nat)
    requires p != q
    ensures "port-" + NatToString(p) != "port-" + NatToString(q)
  {
    var a, b := "port-" + NatToString(p), "port-" + NatToString(q);
    if a == b {
      assert a[5..] == NatToString(p) && b[5..] == NatToString(q);
      NatToStringInjective(p, q);
    }
  }

  /** Different attempts report different methods, so the method identifies
      the attempt that succeeded. */
  lemma MethodLabelsDistinct(i: nat, j: nat)
    requires i < Attempts && j < Attempts && i != j
    ensures MethodLabel(i) != MethodLabel(j)
  {
    if i >= 2 && j >= 2 {
      assert CommonPorts[i - 2] != CommonPorts[j - 2];
      PortLabelsDistinct(CommonPorts[i - 2], CommonPorts[j - 2]);
    } else if i >= 2 {
      assert MethodLabel(i)[0] == 'p';
    } else if j >= 2 {
      assert MethodLabel(j)[0] == 'p';
    }
  }

  /** Different numbers are written differently. */
  lemma NatToStringInjective(m: nat, n: nat)
    requires NatToString(m) == NatToString(n)
    ensures m == n
  {
    NatToStringValue(m);
    NatToStringValue(n);
  }

  /** However the attempts end, the timeouts of the attempts made add up to
      at most 3000 + 3000 + 7 x 2000 ms. */
  lemma ProbeTimeBound(n: nat)
    requires n <= Attempts
    ensures TimeoutBudget(n) <= TimeoutBudget(Attempts) == 20000
    decreases Attempts - n
  {
    if n < Attempts {
      ProbeTimeBound(n + 1);
    }
  }

  /** The requests of the first attempts, in order, carry exactly the
      timeouts of those attempts. */
  lemma {:induction false} TriedTimeouts(ip: string, tried: seq<Request>)
    requires |tried| <= Attempts
    requires forall i :: 0 <= i < |tried| ==> tried[i] == AttemptRequest(ip, i)
    ensures TimeoutTotal(tried) == TimeoutBudget(|tried|)
  {
    if tried != [] {
      TriedTimeouts(ip, tried[..|tried| - 1]);
    }
  }

  /** Whatever prefix of the chain was sent, its timeouts stay within the
      20-second budget. */
  lemma TriedWithinBudget(ip: string, tried: seq<Request>)
    requires |tried| <= Attempts
    requires forall i :: 0 <= i < |tried| ==> tried[i] == AttemptRequest(ip, i)
    ensures TimeoutTotal(tried) <= 20000
  {
    TriedTimeouts(ip, tried);
    ProbeTimeBound(|tried|);
  }

  // ---------------------------------------------------------------------
  // The periodic sweep
  // ---------------------------------------------------------------------

  /** How the sweep's probe of one host ended: the prober ran on these
      attempt outcomes, or the call threw. */
  datatype Observation = Probed(outcomes: seq<Attempt>) | Raised

  predicate WellFormed(obs: Observation) {
    obs.Probed? ==> |obs.outcomes| == Attempts
  }

  /** The record after the sweep probed it at time `now`: online with the
      response time and method on success; offline with the method otherwise
      (the response time is left as it was); offline with method `error` when
      the probe threw. Nothing but the four health fields changes. */
  function SweptHost(h: Host, obs: Observation, now: int): (r: Host)
    requires WellFormed(obs)
    ensures r.healthStatus == Some(Online) <==> obs.Probed? && ProbeSpec(obs.outcomes).success
    ensures r.healthStatus.Some? && r.healthStatus != Some(Checking)
    ensures r.lastHealthCheck == Some(now) && r.healthMethod.Some?
    ensures r.healthStatus != Some(Online) ==> r.responseTime == h.responseTime
    ensures obs.Raised? ==> r.healthMethod == Some("error")
    ensures obs.Probed? ==> r.healthMethod == Some(ProbeSpec(obs.outcomes).probeMethod)
    ensures obs.Probed? && ProbeSpec(obs.outcomes).success ==> r.responseTime == ProbeSpec(obs.outcomes).responseTime
    ensures r.(healthStatus := h.healthStatus, lastHealthCheck := h.lastHealthCheck,
               responseTime := h.responseTime, healthMethod := h.healthMethod) == h
  {
    match obs
    case Raised =>
      h.(healthStatus := Some(Offline), lastHealthCheck := Some(now), healthMethod := Some("error"))
    case Probed(outcomes) =>
      var result := ProbeSpec(outcomes);
      if result.success then
        h.(healthStatus := Some(Online), lastHealthCheck := Some(now),
           responseTime := result.responseTime, healthMethod := Some(result.probeMethod))
      else
        h.(healthStatus := Some(Offline), lastHealthCheck := Some(now), healthMethod := Some(result.probeMethod))
  }

  /** One host's turn in the sweep: probe it (or catch the throw) and write
      the outcome onto the record. */
  method SweepHost(host: Host, obs: Observation, now: int) returns (r: Host)
    requires WellFormed(obs)
    ensures r == SweptHost(host, obs, now)
  {
    match obs {
      case Raised =>
        r := host.(healthStatus := Some(Offline), lastHealthCheck := Some(now), healthMethod := Some("error"));
      case Probed(outcomes) =>
        var result, _ := PerformHealthCheck(host.ip, outcomes);
        if result.success {
          r := host.(healthStatus := Some(Online), lastHealthCheck := Some(now),
                     responseTime := result.responseTime, healthMethod := Some(result.probeMethod));
        } else {
          r := host.(healthStatus := Some(Offline), lastHealthCheck := Some(now),
                     healthMethod := Some(result.probeMethod));
        }
    }
  }

  /** `after` is the list `before` once the sweep has written the outcomes of
      the probes numbered from `first` onto it, in order. */
  predicate SweptItems(before: seq<Host>, after: seq<Host>, observations: seq<Observation>, times: seq<int>, first: nat) {
    && |after| == |before|
    && first + |before| <= |observations|
    && first + |before| <= |times|
    && forall m :: 0 <= m < |before| ==>
         WellFormed(observations[first + m])
         && after[m] == SweptHost(before[m], observations[first + m], times[first + m])
  }

  /** The inner loop over one environment's list; its hosts are the ones
      numbered from `first` in the sweep. */
  method SweepList(items: seq<Host>, observations: seq<Observation>, times: seq<int>, first: nat)
    returns (swept: seq<Host>)
    requires first + |items| <= |observations| <= |times|
    requires forall i :: 0 <= i < |observations| ==> WellFormed(observations[i])
    ensures SweptItems(items, swept, observations, times, first)
  {
    swept := items;
    var k := 0;
    while k < |items|
      invariant 0 <= k <= |items| == |swept|
      invariant forall m :: 0 <= m < k ==> swept[m] == SweptHost(items[m], observations[first + m], times[first + m])
    {
      var host := SweepHost(items[k], observations[first + k], times[first + k]);
      swept := swept[k := host];
      k := k + 1;
    }
  }

  /** The background `performHealthChecks`: with no stored document nothing is
      saved; otherwise every host, in flattened order, is probed once (the
      hosts of environment `e` are probes `Offset(envs, e)` onwards), failures
      do not stop the sweep, and the document is saved with the same
      environments and lists, each record updated in place. */
  method PerformHealthChecks(stored: Option<Document>, observations: seq<Observation>, times: seq<int>)
    returns (saved: Option<Document>)
    requires stored.Some? ==> |observations| == |times| == TotalHosts(stored.value.envs)
    requires forall i :: 0 <= i < |observations| ==> WellFormed(observations[i])
    ensures saved.Some? <==> stored.Some?
    ensures stored.Some? ==>
      var envs, after := stored.value.envs, saved.value.envs;
      && saved.value.version == stored.value.version
      && SameShape(after, envs)
      && forall e :: 0 <= e < |envs| ==>
           SweptItems(envs[e].items, after[e].items, observations, times, Offset(envs, e))
  {
    if stored.None? {
      return None;
    }
    var envs := stored.value.envs;
    var cur := envs;
    var i := 0;
    var e := 0;
    while e < |envs|
      invariant 0 <= e <= |envs|
      invariant i == Offset(envs, e)
      invariant SameShape(cur, envs)
      invariant forall j :: 0 <= j < e ==> SweptItems(envs[j].items, cur[j].items, observations, times, Offset(envs, j))
      invariant forall j :: e <= j < |envs| ==> cur[j] == envs[j]
    {
      var items := SweepList(envs[e].items, observations, times, i);
      cur := cur[e := cur[e].(items := items)];
      OffsetNext(envs, e);
      i := i + |items|;
      e := e + 1;
    }
    saved := Some(stored.value.(envs := cur));
  }

  // ---------------------------------------------------------------------
  // The address-bar keyword
  // ---------------------------------------------------------------------

  /** One suggestion: the host's id as content, `name - ip` as description. */
  datatype Suggestion = Suggestion(content: string, description: string)

  function Describe(h: Host): Suggestion {
    Suggestion(h.id, h.name + " - " + h.ip)
  }

  /** Every host's suggestion, in flattened order. */
  function AllSuggestions(envs: seq<Env>): (r: seq<Suggestion>)
    ensures |r| == |Flatten(envs)|
    ensures forall i :: 0 <= i < |r| ==> r[i] == Describe(Flatten(envs)[i])
  {
    var hosts := Flatten(envs);
    seq(|hosts|, i requires 0 <= i < |hosts| => Describe(hosts[i]))
  }

  /** The suggestion's description contains the typed text, both lower-cased. */
  predicate SuggestionMatches(s: Suggestion, text: string) {
    Includes(ToLower(s.description), ToLower(text))
  }

  /** The suggestions the text matches, in flattened order, before the cut. */
  function Matching(envs: seq<Env>, text: string): seq<Suggestion> {
    Filter(AllSuggestions(envs), (s: Suggestion) => SuggestionMatches(s, text))
  }

  /** `onInputChanged`: nothing is suggested without a stored document;
      otherwise the matching suggestions in flattened order, cut to five. */
  function Suggest(stored: Option<Document>, text: string): (r: Option<seq<Suggestion>>)
    ensures r.Some? <==> stored.Some?
    ensures r.Some? ==> |r.value| <= 5
  {
    if stored.None? then None
    else
      Some(FirstFive(Matching(stored.value.envs, text)))
  }

  /** `slice(0, 5)`. */
  function FirstFive<T>(s: seq<T>): (r: seq<T>)
    ensures r == s[..if |s| <= 5 then |s| else 5]
  {
    if |s| <= 5 then s else s[..5]
  }

  /** Once five elements are there, what follows them is cut away. */
  lemma FirstFiveConcat<T>(s: seq<T>, t: seq<T>)
    requires |s| >= 5
    ensures FirstFive(s + t) == FirstFive(s)
  {
    assert (s + t)[..5] == s[..5];
  }

  /** The suggestions of two runs of environments are those of the first
      followed by those of the second. */
  lemma AllSuggestionsConcat(a: seq<Env>, b: seq<Env>)
    ensures AllSuggestions(a + b) == AllSuggestions(a) + AllSuggestions(b)
  {
    FlattenConcat(a, b);
  }

  /** Matches keep the environments' order: those of earlier environments
      come first. */
  lemma MatchingConcat(a: seq<Env>, b: seq<Env>, text: string)
    ensures Matching(a + b, text) == Matching(a, text) + Matching(b, text)
  {
    AllSuggestionsConcat(a, b);
    FilterConcat(AllSuggestions(a), AllSuggestions(b), (s: Suggestion) => SuggestionMatches(s, text));
  }

  /** Once the earlier environments match five times, later environments
      cannot change what is suggested. */
  lemma SuggestEarlierEnvsFirst(version: int, a: seq<Env>, b: seq<Env>, text: string)
    requires |Matching(a, text)| >= 5
    ensures Suggest(Some(Document(version, a + b)), text) == Suggest(Some(Document(version, a)), text)
  {
    MatchingConcat(a, b, text);
    FirstFiveConcat(Matching(a, text), Matching(b, text));
  }

  /** At most five suggestions, each the content and description of a stored
      host that matches the text; a matching host is left out only when five
      suggestions are already shown. */
  lemma SuggestBounded(stored: Document, text: string)
    ensures var r, m := Suggest(Some(stored), text).value, Matching(stored.envs, text);
      r == m[..if |m| <= 5 then |m| else 5]
    ensures var r := Suggest(Some(stored), text).value;
      && |r| <= 5
      && (forall s :: s in r ==> SuggestionMatches(s, text) && exists h :: h in Flatten(stored.envs) && s == Describe(h))
      && (forall h :: h in Flatten(stored.envs) && SuggestionMatches(Describe(h), text) && Describe(h) !in r ==> |r| == 5)
  {
    var all := AllSuggestions(stored.envs);
    var matching := Filter(all, (s: Suggestion) => SuggestionMatches(s, text));
    var r := Suggest(Some(stored), text).value;
    forall s | s in r ensures SuggestionMatches(s, text) && exists h :: h in Flatten(stored.envs) && s == Describe(h) {
      assert s in multiset(matching);
      assert s in all;
      var i :| 0 <= i < |all| && all[i] == s;
      assert Flatten(stored.envs)[i] in Flatten(stored.envs);
    }
    forall h | h in Flatten(stored.envs) && SuggestionMatches(Describe(h), text) && Describe(h) !in r
      ensures |r| == 5
    {
      var i :| 0 <= i < |Flatten(stored.envs)| && Flatten(stored.envs)[i] == h;
      assert all[i] == Describe(h);
      assert Describe(h) in multiset(all);
      assert Describe(h) in multiset(matching);
    }
  }

  /** The entry test of `onInputEntered`: the id equals the text, or the
      lower-cased name equals the lower-cased text. */
  predicate Designates(h: Host, text: string) {
    h.id == text || ToLower(h.name) == ToLower(text)
  }

  /** `items.find(...)`: the first record the text designates. */
  function FindDesignated(items: seq<Host>, text: string): (r: Option<nat>)
    ensures r.Some? ==> r.value < |items| && Designates(items[r.value], text)
    ensures r.Some? ==> forall j :: 0 <= j < r.value ==> !Designates(items[j], text)
    ensures r.None? ==> forall j :: 0 <= j < |items| ==> !Designates(items[j], text)
  {
    FindIndex(items, (h: Host) => Designates(h, text))
  }

  /** The environment loop of `onInputEntered`: the first environment whose
      list holds a designated record decides, and its first such record wins. */
  function Resolve(envs: seq<Env>, text: string): (r: Option<Host>)
    ensures r.Some? ==> r.value in Flatten(envs) && Designates(r.value, text)
  {
    if envs == [] then None
    else match FindDesignated(envs[0].items, text)
      case Some(k) => Some(envs[0].items[k])
      case None => Resolve(envs[1..], text)
  }

  /** Resolution finds the first designated record of the flattened hosts:
      scanning environment by environment is scanning the flattened list. */
  lemma {:induction false} ResolveFirstInFlatOrder(envs: seq<Env>, text: string)
    ensures Resolve(envs, text) == match FindDesignated(Flatten(envs), text)
      case Some(i) => Some(Flatten(envs)[i])
      case None => None
  {
    if envs != [] {
      ResolveFirstInFlatOrder(envs[1..], text);
      var items, rest := envs[0].items, Flatten(envs[1..]);
      FindDesignatedConcat(items, rest, text);
    }
  }

  /** Finding in a concatenation: the first part first, then the second. */
  lemma FindDesignatedConcat(a: seq<Host>, b: seq<Host>, text: string)
    ensures FindDesignated(a + b, text) == match FindDesignated(a, text)
      case Some(i) => Some(i)
      case None => match FindDesignated(b, text)
        case Some(j) => Some(|a| + j)
        case None => None
  {
    FindIndexConcat(a, b, (h: Host) => Designates(h, text));
  }

  /** `onInputEntered`: the URL opened for the entered text, if any; nothing
      without a stored document or when no record is designated. */
  function EnteredUrl(stored: Option<Document>, text: string): (r: Option<string>)
    ensures r.Some? ==> stored.Some? && exists h :: h in Flatten(stored.value.envs) && Designates(h, text) && r.value == "http://" + h.ip
    ensures r.None? ==> stored.None? || forall h :: h in Flatten(stored.value.envs) ==> !Designates(h, text)
    ensures stored.Some? ==> var hosts := Flatten(stored.value.envs);
      r == match FindDesignated(hosts, text)
        case Some(i) => Some("http://" + hosts[i].ip)
        case None => None
  {
    if stored.None? then None
    else
      ResolveFirstInFlatOrder(stored.value.envs, text);
      match Resolve(stored.value.envs, text)
      case Some(h) => Some("http://" + h.ip)
      case None => None
  }

  /** One pass tests the id and the name together, so a record designated by
      its name wins over a later record designated by its id. */
  lemma NameMatchBeforeLaterId()
    ensures var byName := Host("a1", "x", "10.0.0.1", None, None, "lab", [], "", false, None, None, None, None);
      var byId := Host("x", "db", "10.0.0.2", None, None, "lab", [], "", false, None, None, None, None);
      Resolve([Env("lab", "Lab", [byName, byId])], "x") == Some(byName)
  {
  }
}
