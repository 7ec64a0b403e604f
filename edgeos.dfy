/** The EdgeOS adapter: plugs the DNS proxy into EdgeOS's dnsmasq through a
    directive file and a privileged restart of the service. EdgeOS keeps no
    database state for the proxy, so there is nothing to save or put back. */
module EdgeOS {
  import opened Gateway
  import opened ProxyConfig
  import Template

  /** `sudo /etc/init.d/dnsmasq restart`. */
  const Restart := Exec(["sudo", "/etc/init.d/dnsmasq", "restart"])
  /** The directive file's permission bits, 0644. */
  const FileMode := 420
  const DefaultPath := "/etc/dnsmasq.d/nextdns.conf"
  const DefaultListenPort := "5342"
  /** The directory whose presence identifies EdgeOS. */
  const ProbePath := "/config/scripts/post-config.d"

  /** What the host says about a path: the probe failed, or the path exists
      and is or is not a directory. */
  datatype Stat = StatFailed | Exists(isDir: bool)

  /** The adapter's fields. */
  datatype RouterState = RouterState(
    dnsmasqPath: string,
    listenPort: string,
    clientReporting: bool,
    cacheEnabled: bool)

  /** What the template reads from the adapter; the EdgeOS template has no
      `SetPort0` to read. */
  function Data(s: RouterState): Template.Data {
    Template.Data(s.cacheEnabled, false, s.clientReporting, s.listenPort)
  }

  /** Writing the rendered directive file. */
  function WriteOp(s: RouterState): Op {
    WriteTemplate(s.dnsmasqPath, Template.EdgeOS, Data(s), FileMode)
  }

  /** The takeover (`setupDNSMasq`): the file write, then the restart. */
  function SetupPlan(s: RouterState): seq<Step> {
    [Step(WriteOp(s), true), Step(Restart, true)]
  }

  /** `Restore`: the file removal, whose failure ends it, then the restart. */
  function RestorePlan(s: RouterState): seq<Step> {
    [Step(Remove(s.dnsmasqPath), true), Step(Restart, true)]
  }

  /** Two checked steps: the second is issued only when the first went
      through, and the error returned is that of the first step that failed. */
  lemma TwoChecked(trace: seq<Op>, a: Op, b: Op, answer: Oracle)
    ensures var r := Play(trace, [Step(a, true), Step(b, true)], answer);
      r == if !answer(|trace|, a).Ok? then Outcome(trace + [a], Failure(a))
           else if !answer(|trace| + 1, b).Ok? then Outcome(trace + [a, b], Failure(b))
           else Outcome(trace + [a, b], Success)
  {
    assert [Step(a, true), Step(b, true)][1..] == [Step(b, true)];
    PlayLast(trace + [a], Step(b, true), answer);
    assert trace + [a] + [b] == trace + [a, b];
  }

  /** The takeover writes the file before restarting; a failed write is
      returned and no restart is issued, and a failed restart is returned. */
  lemma SetupWritesThenRestarts(s: RouterState, trace: seq<Op>, answer: Oracle)
    ensures !answer(|trace|, WriteOp(s)).Ok? ==>
      Play(trace, SetupPlan(s), answer) == Outcome(trace + [WriteOp(s)], Failure(WriteOp(s)))
    ensures answer(|trace|, WriteOp(s)).Ok? ==>
      Play(trace, SetupPlan(s), answer).trace == trace + [WriteOp(s), Restart] &&
      Play(trace, SetupPlan(s), answer).status ==
        (if answer(|trace| + 1, Restart).Ok? then Success else Failure(Restart))
  {
    TwoChecked(trace, WriteOp(s), Restart, answer);
  }

  /** `Restore` returns a failed removal at once, without restarting; after
      a removal it restarts and returns a failed restart. */
  lemma RestoreRemovesThenRestarts(s: RouterState, trace: seq<Op>, answer: Oracle)
    ensures !answer(|trace|, Remove(s.dnsmasqPath)).Ok? ==>
      Play(trace, RestorePlan(s), answer) == Outcome(trace + [Remove(s.dnsmasqPath)], Failure(Remove(s.dnsmasqPath)))
    ensures answer(|trace|, Remove(s.dnsmasqPath)).Ok? ==>
      Play(trace, RestorePlan(s), answer).trace == trace + [Remove(s.dnsmasqPath), Restart] &&
      Play(trace, RestorePlan(s), answer).status ==
        (if answer(|trace| + 1, Restart).Ok? then Success else Failure(Restart))
  {
    TwoChecked(trace, Remove(s.dnsmasqPath), Restart, answer);
  }

  /** Every process the adapter runs is the privileged restart of dnsmasq:
      whatever the host replies, each `Exec` issued by the takeover or by
      `Restore` (and so by `Router.SetupDNSMasq` and `Router.Restore`) is
      `sudo /etc/init.d/dnsmasq restart`. */
  lemma OnlyRestartRuns(s: RouterState, trace: seq<Op>, answer: Oracle)
    ensures forall op :: op in Play(trace, SetupPlan(s), answer).trace[|trace|..] && op.Exec? ==>
      op.argv == ["sudo", "/etc/init.d/dnsmasq", "restart"]
    ensures forall op :: op in Play(trace, RestorePlan(s), answer).trace[|trace|..] && op.Exec? ==>
      op.argv == ["sudo", "/etc/init.d/dnsmasq", "restart"]
  {
    IssuesOnly(trace, WriteOp(s), Restart, answer);
    IssuesOnly(trace, Remove(s.dnsmasqPath), Restart, answer);
  }

  /** A plan of two checked steps issues nothing but its two operations. */
  lemma IssuesOnly(trace: seq<Op>, a: Op, b: Op, answer: Oracle)
    ensures forall op :: op in Play(trace, [Step(a, true), Step(b, true)], answer).trace[|trace|..] ==>
      op == a || op == b
  {
    TwoChecked(trace, a, b, answer);
    assert (trace + [a])[|trace|..] == [a];
    assert (trace + [a, b])[|trace|..] == [a, b];
  }

  /** The file the takeover writes holds, one per line, the header and then
      either the cache directives, `port=0` always included, or the
      delegation directives. */
  lemma WrittenFile(s: RouterState)
    ensures Template.Execute(WriteOp(s).tmpl, WriteOp(s).data) ==
      Template.FileText(
        if s.cacheEnabled then [Template.Header, Template.Handled, Template.Port0]
        else [Template.Header, Template.NoResolv, Template.ServerPrefix + s.listenPort]
             + if s.clientReporting then [Template.AddMac, Template.AddSubnet] else [])
  {
    Template.EdgeOSRendersLines(Data(s));
    if !s.cacheEnabled {
      var extra := if s.clientReporting then [Template.AddMac, Template.AddSubnet] else [];
      assert [Template.Header] + ([Template.NoResolv, Template.ServerPrefix + s.listenPort] + extra) ==
        [Template.Header, Template.NoResolv, Template.ServerPrefix + s.listenPort] + extra;
    }
  }

  /** Restarts dnsmasq (`restartDNSMasq`) and returns a failure. */
  method RestartDNSMasq(host: Host) returns (err: Status)
    modifies host
    ensures Outcome(host.trace, err) == Play(old(host.trace), [Step(Restart, true)], host.answer)
  {
    PlayLast(host.trace, Step(Restart, true), host.answer);
    var reply := host.Issue(Restart);
    if !reply.Ok? {
      return Failure(Restart);
    }
    return Success;
  }

  /** The EdgeOS adapter. */
  class Router {
    var dnsmasqPath: string
    var listenPort: string
    var clientReporting: bool
    var cacheEnabled: bool

    function State(): RouterState
      reads this
    {
      RouterState(dnsmasqPath, listenPort, clientReporting, cacheEnabled)
    }

    constructor (dnsmasqPath: string, listenPort: string)
      ensures State() == RouterState(dnsmasqPath, listenPort, false, false)
    {
      this.dnsmasqPath := dnsmasqPath;
      this.listenPort := listenPort;
      clientReporting, cacheEnabled := false, false;
    }

    /** Chooses the mode from the proxy's cache size. With a positive size the
        proxy takes port 53 and dnsmasq is taken over at once; otherwise the
        proxy listens on the loopback port and the takeover waits for Setup. */
    method Configure(c: Config, parse: ByteParser, host: Host) returns (err: Status)
      modifies this, c, host
      ensures c.reportClientInfo == old(c.reportClientInfo) && c.cacheSize == old(c.cacheSize)
      ensures var positive := CacheBytes(parse(old(c.cacheSize))) > 0;
        c.listens == if positive then [":53"] else ["127.0.0.1:" + old(listenPort)]
      ensures var positive := CacheBytes(parse(old(c.cacheSize))) > 0;
        State() == old(State()).(clientReporting := old(c.reportClientInfo), cacheEnabled := old(cacheEnabled) || positive) &&
        if positive then Outcome(host.trace, err) == Play(old(host.trace), SetupPlan(State()), host.answer)
        else host.trace == old(host.trace) && err == Success
    {
      c.listens := ["127.0.0.1:" + listenPort];
      clientReporting := c.reportClientInfo;
      if CacheBytes(parse(c.cacheSize)) > 0 {
        cacheEnabled := true;
        c.listens := [":53"];
        err := SetupDNSMasq(host);
        return;
      }
      return Success;
    }

    /** Takes dnsmasq over unless Configure already did. */
    method Setup(host: Host) returns (err: Status)
      modifies host
      ensures old(cacheEnabled) ==> host.trace == old(host.trace) && err == Success
      ensures !old(cacheEnabled) ==>
        Outcome(host.trace, err) == Play(old(host.trace), SetupPlan(State()), host.answer)
    {
      if !cacheEnabled {
        err := SetupDNSMasq(host);
        return;
      }
      return Success;
    }

    /** A fresh adapter configured and then set up, as its caller does it,
        stopping at a configuration error: whatever the cache size, dnsmasq is
        taken over exactly once. */
    method ConfigureThenSetup(c: Config, parse: ByteParser, host: Host) returns (err: Status)
      requires !cacheEnabled
      modifies this, c, host
      ensures State() == old(State()).(clientReporting := old(c.reportClientInfo),
                                       cacheEnabled := CacheBytes(parse(old(c.cacheSize))) > 0)
      ensures Outcome(host.trace, err) == Play(old(host.trace), SetupPlan(State()), host.answer)
    {
      err := Configure(c, parse, host);
      if err.Failure? {
        return;
      }
      err := Setup(host);
    }

    /** Writes the directive file and restarts dnsmasq. */
    method SetupDNSMasq(host: Host) returns (err: Status)
      modifies host
      ensures Outcome(host.trace, err) == Play(old(host.trace), SetupPlan(State()), host.answer)
    {
      TwoChecked(host.trace, WriteOp(State()), Restart, host.answer);
      var wrote := host.Issue(WriteOp(State()));
      if !wrote.Ok? {
        return Failure(WriteOp(State()));
      }
      err := RestartDNSMasq(host);
      PlayLast(old(host.trace) + [WriteOp(State())], Step(Restart, true), host.answer);
    }

    /** Removes the directive file and restarts dnsmasq; a failed removal is
        returned without restarting. */
    method Restore(host: Host) returns (err: Status)
      modifies host
      ensures Outcome(host.trace, err) == Play(old(host.trace), RestorePlan(State()), host.answer)
    {
      TwoChecked(host.trace, Remove(dnsmasqPath), Restart, host.answer);
      var removed := host.Issue(Remove(dnsmasqPath));
      if !removed.Ok? {
        return Failure(Remove(dnsmasqPath));
      }
      err := RestartDNSMasq(host);
      PlayLast(old(host.trace) + [Remove(dnsmasqPath)], Step(Restart, true), host.answer);
    }
  }

  /** Detects EdgeOS by its post-configuration script directory: found
      exactly when that path exists and is a directory. */
  method New(stat: string -> Stat) returns (r: Router?, found: bool)
    ensures found <==> stat(ProbePath) == Exists(true)
    ensures found ==> r != null && fresh(r) && r.State() == RouterState(DefaultPath, DefaultListenPort, false, false)
    ensures !found ==> r == null
  {
    var st := stat(ProbePath);
    if st.StatFailed? || !st.isDir {
      return null, false;
    }
    r := new Router(DefaultPath, DefaultListenPort);
    found := true;
  }
}
